# Verified model of the Pacemaker Cloud policy engine daemon

The daemon watches the assemblies (virtual machines) of a deployable and the resources (services)
in them. It turns the deployable's configuration into a document for the Pacemaker policy engine,
carries out the resource actions the engine asks for over SSH or QMF, keeps a history of their
results, and recovers what fails: by restarting it, or by escalating when it fails too often.
Everything runs in one event loop, as jobs, timers and callbacks.

This project models five parts of it and proves what they keep in every run.

| file | part |
|---|---|
| `Recover.dfy` | failure counting: restart or escalate (`Escalation`), on an overwriting ring of times (`Recover`) |
| `SshExec.dfy` | one remote command: a switch that is resumed after every EAGAIN |
| `SshTransport.dfy` | the queue of commands of one connection, its executor job and its timeouts |
| `SshRuns.dfy` | what that transport does, read off the events of a run |
| `PolicyLoop.dfy` | transitions of the policy engine and requests to process |
| `OpLifecycle.dfy` | reference-counted operations and recurring monitors |
| `OpContract.dfy` | what these need of the environment, exactly, and runs without it |
| `OpEffects.dfy` | what executions ask of the engine, the exact reference count, and what each event decides |
| `Cape.dfy` | the same as the code that updates it in place, together with the history |
| `OpHistory.dfy` | the operation history and its keys |
| `ConfigTranslation.dfy` | the style sheet that makes the policy document, and the daemon's own reading of the same configuration |
| `Ordering.dfy` | the order constraints of the document |
| `AddressRefs.dfy` | values in the document that refer to another assembly's address |
| `AsyncRpc.dfy` | QMF method calls raced by their timers |
| `MatahariOps.dfy` | how often a call is answered, and what that does to the operation it carries |
| `Heartbeat.dfy` | failure detection by heartbeat |

Each part is a state machine: a state, the events of the loop that are possible in it, and a step
function that does what the source does for that event. Theorems quantify over every run, that is,
every sequence of possible events. Beside it stands a class with the source's own fields and methods,
each proved to take the state to the one the step function gives, so that the theorems hold of the
code in place. What a step function computes is stated a second time without it, by reading the
outcome off the events of the run: which operation is executed, which number a heartbeat is compared
with, how many references an operation has, which state was last reported. Where the source relies on something its environment does, that is written down as a
`Contract`, and a lemma says what happens exactly when it is broken.

The libraries underneath are inputs: libssh2 is an arbitrary sequence of answers, the policy engine an
arbitrary sequence of dispatched actions, QMF an arbitrary sequence of replies, and the clock an
arbitrary increasing number. The life of an SSH channel (open, exec, data, EOF, close) is that of
sections 5.1, 5.3, 6.5 and 6.10 of RFC 4254.

Properties that turned out not to hold of the code are stated with the exact condition under which
they do, and with an input that breaks them:

- every disconnect reads the transport it has just freed (`SshQueue.EveryDisconnectReadsFreed`); beyond that, a health check that fails makes its own callback free the transport it runs in, nothing clears the reference to a transport that was freed, and one whose socket is being connected leaves a job behind (`SshQueue.NoFaultIffCareful`, `SshQueue.TeardownLeavesNothing`, with a run for each);
- the policy engine can make two operations of a resource recur, ask for a resource that is not there, end a transition too early, and the 32-bit execution counter comes round (`OpContract.ContractIsExact`, with a run for each in `CarelessRuns`);
- an action whose execution is lost keeps its transition from ever ending (`OpContract.LostActionStalls`, `OpContract.CanEnd`);
- operation keys collide when the buffer is full (`HistoryKeys.SharedText`), and resource ids when one assembly name begins another (`Cib.PrefixedNamesClash`);
- a reference parameter of a resource with too long a name is not found (`ResourceCreation.ReferenceNodeFound`);
- dependencies that make configuration scripts wait can make the order cyclic (`Ordering.OrderAcyclic`, `Ordering.CfgDependencyCycles`);
- an address that changes while its assembly is RUNNING is not written to the document (`AddressRefs.AddressChangesWhileRunning`, `AddressRefs.ReportsWhilePolled`);
- a late exception or cancellation is a second answer, a second connection sends deleted requests, and an unknown correlator leaves a null reference behind (`AsyncRpc.ContractIsExact`, with a run for each); nobody is ever told that a call was not connected (`AsyncRpc.NeverNotConnected`); and an error over Matahari keeps a reference that only a second answer drops (`MatahariOps.AnswersBalance`);
- a lost heartbeat goes unnoticed when the sequence number wraps round just then (`Heartbeat.SkipIsSeen`).

## Model

| member | source | states |
|---|---|---|
| Escalation.RestartBound | src/recover.c:89-135 | for every run of state changes and every monotone clock, in any interval no longer than the period there are at most (N-1) restarts for each escalation in it, plus N-1 |
| Escalation.RestartBoundIsTight | src/recover.c:109-128 | the bound is reached: up to N-1 failures at one instant are all restarted and none escalates |
| Escalation.DisabledNeverEscalates | src/recover.c:106-134 | with either number missing nothing escalates, and every change to FAILED from another state restarts |
| Escalation.RunKeepsAccount | src/recover.c:109-128 | along every run, restarts in the interval are paid for by escalations and by the fewer than N failures still counted |
| Escalation.LogFollowsClock | src/recover.c:109-128 | the failure times counted since the last escalation are in order and not in the future |
| Escalation.LogIsFailuresSince | src/recover.c:109-128 | in every run, the times counted are those of every change to FAILED since the last escalation, which starts over |
| Escalation.DecidesExactly | src/recover.c:89-135 | every decision read off the run: a failure escalates exactly when the newest N failures since the last escalation, itself included, lie within the period, and is otherwise a restart; other changes do nothing |
| Recover.RingSlotsDiffer | src/recover.c:79-84 | fewer than N splits apart never share a slot of the ring |
| Recover.Stopwatch.constructor | src/recover.c:79-84 | a new stopwatch has a ring of N and no splits |
| Recover.Stopwatch.Start | src/recover.c:124-127 | starting again forgets every split |
| Recover.Stopwatch.Split | src/recover.c:112 | a split is appended, overwriting the oldest slot of the ring |
| Recover.Stopwatch.SplitLast | src/recover.c:114 | the number of the last split |
| Recover.Stopwatch.TimeSplitGet | src/recover.c:117-118 | the difference of two recorded times, as long as the older has not been overwritten |
| Recover.Recover.constructor | src/recover.c:34-87 | a new recover object is in state UNKNOWN with no failures counted |
| Recover.Recover.CountFailure | src/recover.c:109-128 | a failure escalates exactly when the newest N of all failures noted span no more than the period, and then all are forgotten |
| Recover.Recover.StateSet | src/recover.c:89-135 | deciding from the overwriting ring is deciding from the whole list of failures since the last escalation: escalate exactly when there are at least N and the newest N span no more than the period; the observer is told exactly of changes |
| SshExec.RunOperation | src/trans_ssh.c:155-348 | for every pattern of EAGAIN answers, resuming the switch job by job makes the same successful calls in the same order and delivers the same result as the straight blocking script, in at most one job more than there are EAGAINs |
| SshExec.ScriptInOrder | src/trans_ssh.c:155-348 | the calls of the blocking script are the channel steps in order, none repeated; a status is delivered only after all steps up to the free and is the command's own; a refused open called nothing |
| SshExec.StepsInOrder | src/trans_ssh.c:167-329 | the same from any step the switch may resume at |
| SshExec.CallDecides | src/trans_ssh.c:168-329 | what one answer does: EAGAIN changes nothing, success goes on, an error leaves, aborts or goes straight to the free |
| SshExec.ResumeAtOpenRunsAll | src/trans_ssh.c:58-68 | following the fall-through order, which is not the order of the enum, from the first state runs every step once |
| SshExec.SshOp.OpenChannel | src/trans_ssh.c:168-180 | the first case: on an error it leaves without completing and without asking for another job |
| SshExec.SshOp.Advance | src/trans_ssh.c:186-198 | the shape of the middle cases: stay on EAGAIN, go to the free on an error, else to the next case |
| SshExec.SshOp.FreeChannel | src/trans_ssh.c:316-329 | the last case ends the operation with what the script delivers |
| SshExec.SshOp.AfterEof | src/trans_ssh.c:241-329 | the cases from the close on |
| SshExec.SshOp.AssemblySshExec | src/trans_ssh.c:155-348 | one job takes the operation along the blocking script; if it asks for another job fewer EAGAINs or fewer steps are left |
| SshQueue.EveryTurn | src/trans_ssh.c:109-153 | after every turn of every careful run: scheduled exactly when the queue is not empty; at most one executor job, for the head; every queued operation has its timeout armed and not overdue, and no other timeout is armed |
| SshQueue.CallbacksAndOrder | src/trans_ssh.c:144-153 | over every careful run each operation is called back at most once, by completion or timeout; since the last flush operations finish in the order they were submitted and the queue is the rest |
| SshQueue.TeardownLeavesNothing | src/trans_ssh.c:718-785 | after every careful run, disconnecting a transport that is there, from outside an executor step, leaves no operation, timer, executor job or session job, and nothing at all if and only if no connect_execute job remains, which one always does while the socket is being connected |
| SshQueue.NoFaultIffCareful | src/trans_ssh.c:335-348 | apart from the close after the free, freed memory is used in exactly the runs in which a failed health check makes recovery restart the node, or a transport that is gone is given an action, torn down again or connected by a job it left behind |
| SshQueue.EveryDisconnectReadsFreed | src/trans_ssh.c:782-783 | in every run, the descriptor of a transport is read after the transport was freed if and only if some event disconnects one |
| SshQueue.FirstTeardownReadsFreed | src/trans_ssh.c:782-783 | the shortest such run: one disconnection, otherwise careful |
| SshQueue.BeforeExit | src/trans_ssh.c:335-373 | in every run before the daemon exits, careful means that no failed health check frees its own transport; then an assembly is RUNNING only on a connected transport, and disconnecting leaves nothing if and only if the socket is not being connected |
| SshQueue.FailedHealthcheckFaults | src/trans_ssh.c:488-520 | such a run: the first health check answers with a failure |
| SshQueue.SecondTeardownFaults | src/cape.c:1129-1143 | such a run: a timeout restarted the node and the daemon exits before a new transport is made |
| SshQueue.ExecuteAfterTeardownFaults | src/trans_ssh.c:802-809 | such a run, in the last turn of the loop: the exiting daemon has disconnected an assembly that is still RUNNING, and an action is submitted |
| SshQueue.ConnectJobFaults | src/trans_ssh.c:534-557 | such a run: a transport is disconnected while its socket is being connected, and the job that connects it runs |
| SshQueue.StepKeeps | src/trans_ssh.c:109-373 | every event that neither frees its own transport nor uses one that is gone keeps the invariant, through disconnections and all the steps of a new connection |
| SshQueue.CompleteKeeps | src/trans_ssh.c:335-348 | completing the head keeps it, whatever the callback submits |
| SshQueue.TimeoutKeeps | src/trans_ssh.c:350-373 | so does a timeout, which flushes the queue, makes the assembly FAILED and may restart it |
| SshQueue.DisconnectKeeps | src/trans_ssh.c:718-785 | so does disconnecting a transport that is there, after which only connect_execute jobs can remain |
| SshQueue.ConnectingKeeps | src/trans_ssh.c:389-463 | so do the steps towards a connection |
| SshTransport.TransSsh.constructor | src/trans_ssh.c:444-474 | a connection that has just come up submits its first health check |
| SshTransport.TransSsh.TransportExecute | src/trans_ssh.c:787-837 | appends an operation, arms its timeout and schedules if nothing was scheduled; ignored before the connection is up, a fault once it is gone |
| SshTransport.TransSsh.TransportDisconnect | src/trans_ssh.c:718-785 | unschedules, drops every operation and its timer, the other timers and the session job, but a connect_execute job only in one state; reads what it has freed; a second one is a fault |
| SshTransport.TransSsh.NodeFails | src/trans_ssh.c:476-480 | the assembly becomes FAILED and, if it was not, is restarted when its policy says so |
| SshTransport.TransSsh.ConnectJob | src/trans_ssh.c:534-557 | connects the socket or tries again; a fault when the transport is gone |
| SshTransport.TransSsh.SessionConnect | src/trans_ssh.c:389-474 | the switch falls through from the state it is in until it has to wait, is refused or is up |
| SshTransport.TransSsh.SessionUp | src/trans_ssh.c:451-463 | a connection that is up has its keepalive and its first health check, and the assembly is RUNNING |
| SshTransport.TransSsh.FlushQueue | src/trans_ssh.c:350-373 | what timeout and disconnect share |
| SshTransport.TransSsh.DropAll | src/trans_ssh.c:754-764 | the loop that unlinks every operation |
| SshTransport.TransSsh.Completion | src/trans_ssh.c:488-520 | what a completion callback does to the transport, including tearing it down |
| SshTransport.TransSsh.SshOpComplete | src/trans_ssh.c:144-153 | unlinks one operation and calls back, unless it failed |
| SshTransport.TransSsh.FinishJob | src/trans_ssh.c:335-339 | completes the head and schedules the next one |
| SshTransport.TransSsh.AssemblySshExec | src/trans_ssh.c:155-348 | an executor job, by the way its switch ended |
| SshTransport.TransSsh.SshTimeout | src/trans_ssh.c:350-373 | flushes the queue and calls back the operation that timed out |
| SshTransport.TransSsh.TimeoutCallback | src/trans_ssh.c:476-486 | what the callback of a timed out operation does to the transport |
| SshTransport.TransSsh.AssemblyHealthcheck | src/trans_ssh.c:522-532 | the health check timer submits a health check |
| SshRuns.HeadIsServed | src/trans_ssh.c:109-121 | after every careful run the first operation of the queue has its executor job, and it alone, unless the run's events say that the channel of that very operation was refused |
| SshRuns.QueueAfter | src/trans_ssh.c:109-153 | what is queued after each event, in order: submissions at the end, a completed head taken off, nothing after a timeout or disconnection |
| SshRuns.CompleteQueue | src/trans_ssh.c:335-348 | completing takes the head off, puts on what its callback submits, and gives the new head a job |
| SshRuns.CallbacksReadOffRun | src/trans_ssh.c:144-153 | in every run whatsoever the callbacks made are those of the jobs that ended without an error of the library and of the timeouts, in order, each with its own operation and status |
| SshRuns.KeepsChecking | src/trans_ssh.c:488-532 | before the daemon exits, a RUNNING assembly has its keepalive, and its next health check is queued or its timer armed, if and only if the last one did not end in an error of the library |
| SshRuns.NodeIsLastTold | src/trans_ssh.c:444-520 | in every careful run the assembly is in the state that was last told: FAILED by a bad health check or any timeout, RUNNING by a new connection, UNKNOWN while its instance is polled for |
| SshRuns.Reconnects | src/trans_ssh.c:389-474 | a transport that is gone can be replaced: a run through socket and session that ends RUNNING with the first health check being executed |
| SshRuns.ConnectJobsReadOffRun | src/trans_ssh.c:534-557 | in every careful run every connection that was begun and whose socket did not connect still has its job in the loop, but for those deleted with a transport whose session was to be made |
| PolicyLoop.OneTransition | src/pcmk_pe.c:367-408 | in every run, between turns, a transition is active exactly when one process_next_job is queued, and that job is for it |
| PolicyLoop.NoSecondTransition | src/pcmk_pe.c:480-532 | until the active transition ends, no other starts, whatever else happens |
| PolicyLoop.RequestIsKept | src/cape.c:682-745 | in every run, a request to process keeps a job queued until the status is rebuilt after it, however often the job finds the engine busy |
| PolicyLoop.ConfirmationIsKept | src/pcmk_pe.c:186-208 | in every run, a confirmation during a transition leaves graph_updated set until the next graph pass or the end of the transition |
| PolicyLoop.RunKeepsOrder | src/pcmk_pe.c:312-408 | every run keeps the engine's state in order, and transitions are numbered upwards |
| PolicyLoop.OneRebuildPerRequest | src/cape.c:725-745 | in every run the process_job jobs queued are the requests made less the times the status was rebuilt |
| PolicyLoop.RunsGraphExactly | src/pcmk_pe.c:367-380 | in every run, a process_next_job runs the graph if and only if, since the last one, a transition was begun or something was confirmed while one was active |
| PolicyLoop.PassNeedsConfirmation | src/pcmk_pe.c:375-380 | after a pass has begun graph_updated stays clear until something is confirmed or another transition starts |
| PolicyLoop.TransitionsAreRebuilds | src/pcmk_pe.c:480-532 | a transition is begun, and numbered, exactly when the status is rebuilt |
| OpLifecycle.NeverFreedEarly | src/cape.c:420-518 | in every reachable state an operation has at least as many references as places that can still reach it, and never more than three, so nothing armed, in flight or a monitor_op has been freed, no freed operation is used and no missing resource |
| OpLifecycle.OneMonitorPerResource | src/cape.c:452-518 | per resource at most one recurring operation is armed or in flight; monitor_timer is its timer, and monitor_op, if set, is that operation |
| OpLifecycle.ConfirmedOnceAndAlive | src/pcmk_pe.c:186-208 | no action is confirmed twice, or on a transition other than its own, or after that ended; whatever is unconfirmed belongs to the live transition |
| OpLifecycle.StepKeeps | src/cape.c:420-609 | every event of the loop that keeps the contract keeps the invariant |
| OpLifecycle.RunKeeps | src/cape.c:420-609 | so does every run |
| OpLifecycle.ExecuteKeeps | src/cape.c:560-609 | executing a new action accounts for its one reference on every path, including those that look at the host name and those without a resource |
| OpLifecycle.CompletedKeeps | src/cape.c:420-468 | a completed execution re-arms its timer or drops its reference |
| OpLifecycle.RecurringStartKeeps | src/cape.c:493-506 | starting a recurring monitor, or declining because one is armed |
| OpLifecycle.RecurringStopKeeps | src/cape.c:508-518 | stopping drops the timer's reference and monitor_op's |
| OpLifecycle.RefKeeps | src/pcmk_pe.c:142-149 | taking a reference keeps the account |
| OpLifecycle.UnrefKeeps | src/pcmk_pe.c:158-184 | dropping one that is held keeps it and frees nothing that can still be reached |
| OpLifecycle.ConfirmKeeps | src/pcmk_pe.c:186-208 | confirming a waiting action keeps it, and the action is one of the live transition |
| OpLifecycle.TimerDelKeeps | src/cape.c:211-236 | deleting a monitor timer keeps it |
| OpLifecycle.FlightDoneKeeps | src/trans_ssh.c:571-589 | a transport callback completes the execution and drops the transport's reference |
| EngineEffects.RefinesLoop | src/cape.c:420-609 | the daemon refines the policy loop: every run of the daemon that keeps the contract is a run of the loop, with the requests and confirmations its events stand for |
| EngineEffects.EngineFollows | src/cape.c:420-609 | each event does to the engine exactly what it stands for: a first execution confirms, an unexpected result requests, and so on |
| EngineEffects.UnexpectedIsRequested | src/cape.c:447-451 | an execution that ends, by completion or because its host is not running, adds one request to process if its exit code is not the expected one, and none if it is |
| EngineEffects.UnexpectedIsProcessed | src/cape.c:447-451 | after an unexpected result, in every later run that keeps the contract, a process_job is queued until the status has been rebuilt |
| RefAccount.ExactReferences | src/pcmk_pe.c:142-184 | in every run that keeps the contract, an operation has exactly one reference for every place that can reach it, and one for each the run has lost: executions that were dropped, a monitor_op overwritten, a timer taken away by a failure; so it is freed exactly when nothing reaches it and nothing was lost |
| RefAccount.StepSurplus | src/cape.c:420-609 | each event changes what no place accounts for exactly by what it loses |
| OpDecisions.DispatchDecides | src/cape.c:560-609 | a dispatched action is in flight, and its graph action waits, if and only if its host is running, its resource is there and no monitor timer makes it unnecessary |
| OpDecisions.TimerDecides | src/cape.c:470-491 | a monitor timer executes its operation if the host is running and fails it at once if not |
| OpDecisions.ResultDecides | src/cape.c:452-465 | an operation is armed again if and only if it recurs and the exit code is the expected one |
| OpDecisions.MonitorIs | src/cape.c:493-551 | monitor_op after every event: set by a recurring monitor that is executed, cleared by a stop, and by a delete or a restart while its timer runs |
| OpDecisions.StoppedIsDisarmed | src/cape.c:508-518 | after a stop, delete or restart that stops the monitor, its timer is not running |
| OpDecisions.FailedIsDisarmed | src/cape.c:211-236 | a resource that fails unexpectedly has no monitor timer any more |
| OpDecisions.StateIsLatestResult | src/cape.c:379-418 | in every run a resource is in the state its latest result says, by method, interval and exit code |
| OpDecisions.OnlineIsLatest | src/cape.c:327-366 | in every run, the hosts that count as running are those that last came up |
| OpContract.ContractIsExact | src/cape.c:420-609 | every event keeps references, monitors, resources and confirmations right if and only if it keeps the contract |
| OpContract.OverlappingStart | src/cape.c:493-506 | an operation that is made to recur leaves at most one active and monitor_op right if and only if nothing else of the resource is in flight, armed or referred to; for a recurring monitor on a running host, if and only if none is in flight |
| OpContract.MissingResource | src/cape.c:560-609 | an action whose resource is not there is found out if and only if the resource is needed: at once, or for a start when it completes |
| OpContract.LostResource | src/cape.c:420-468 | an execution that completes without its resource runs into that |
| OpContract.CounterComesRound | src/cape.c:430-445 | an execution, by completion or by a timer on a host that is not running, confirms an action that does not wait if and only if the 32-bit counter has come round while a transition is live |
| OpContract.EndsTooEarly | src/pcmk_pe.c:381-402 | ending a transition keeps confirmations right if and only if no action is unconfirmed |
| OpContract.LostActionStalls | src/trans_ssh.c:350-373 | once an execution is lost before it confirmed its action, in every later run that keeps the contract its transition stays live, no other starts and the status is never rebuilt |
| OpContract.FlightLostStalls | src/trans_ssh.c:350-373 | a timeout or disconnection during a first execution is such a loss |
| OpContract.CanEnd | src/pcmk_pe.c:367-408 | a live transition can still end, under a policy engine that keeps the contract, if and only if none of its actions is stalled and it is being run, is about to be run, or waits for an execution |
| OpContract.DormantForever | src/pcmk_pe.c:375-379 | a live transition for which nothing is open and nothing was confirmed since its last pass stays so in every later run |
| CarelessRuns.OverlapFreesEarly | src/cape.c:493-518 | a run with two recurring monitors of one resource in which an operation is used after it was freed |
| CarelessRuns.ManyExecutions | src/cape.c:452-462 | every number of executions below 2^32 is reached during one transition |
| CarelessRuns.CounterWraps | src/cape.c:430-445 | so a run in which a long confirmed action is confirmed again |
| CarelessRuns.DestroyedGraph | src/pcmk_pe.c:186-208 | a run in which an action is confirmed on a graph that was destroyed, while another is live |
| CarelessRuns.NeighbourProbe | src/cape.c:582-594 | a run in which a probe of another host's resource, whose name contains this host's, fails the assertion |
| CarelessRuns.ExpectedError | src/cape.c:567-573 | a run in which a monitor that expects an unknown error overlaps one in flight |
| Cape.Daemon.RecoverStateSet | src/cape.c:211-236 | a resource that becomes FAILED loses its timer |
| Cape.Daemon.ResourceStateSet | src/cape.c:379-418 | the resource's state after each method, interval and exit code |
| Cape.Daemon.CountExecution | src/cape.c:430-445 | counts the execution modulo 2^32 and confirms while the count is at most one |
| Cape.Daemon.SettleResource | src/cape.c:447-451 | sets the state and asks for processing on an unexpected code |
| Cape.Daemon.ResourceActionCompleted | src/cape.c:420-468 | a completed execution, recorded in the history exactly when its resource is there and its name mentions the host |
| Cape.Daemon.HistoryIsRight | src/cape.c:78-120 | at any time the daemon's history map has an entry for an operation exactly when it was executed since its resource was last deleted or its node restarted, with its latest result |
| Cape.Daemon.constructor | src/cape.c:980-1042 | a daemon that has loaded its configuration has no operations, no transition and no history |
| Cape.Daemon.RecordExecution | src/cape.c:439-441 | adds to what the history stands for exactly this execution, with its key, exit code, clock, digest, target, graph and action |
| Cape.ExecutionShows | src/cape.c:78-120 | what the history shows after an execution: its exit code, the time it ran, its digest, graph and action, the time of the code's change if the code is new, the next call id; no other entry changes |
| Cape.Daemon.FinishExecution | src/cape.c:447-465 | the rest of a completed execution, with and without its resource |
| Cape.Daemon.TransportResourceAction | src/trans_ssh.c:605-620 | hands the operation to the transport, with a reference |
| Cape.Daemon.ResourceMonitorExecute | src/cape.c:470-491 | runs a monitor, or fails it at once when the node is not running |
| Cape.Daemon.RecurringMonitorStart | src/cape.c:493-506 | as in OpLifecycle |
| Cape.Daemon.RecurringMonitorStop | src/cape.c:508-518 | as in OpLifecycle |
| Cape.Daemon.StopMonitorIfArmed | src/cape.c:252-258 | stops the monitor while its timer is running |
| Cape.Daemon.ForgetResource | src/cape.c:520-551 | the loop over the history deletes exactly the resource's entries and stops its monitor once, if there was an entry |
| Cape.Daemon.NodeOpHistoryClear | src/cape.c:238-269 | the loop over the history deletes exactly the entries of the node's resources, as one HistoryCleared event for each |
| Cape.Daemon.ResourceOf | src/cape.c:248-251 | the one resource an entry belongs to |
| Cape.Daemon.ResourceExecuteCb | src/cape.c:560-609 | executes an action by host state, host name, resource and method, and adds to the history what that completes or deletes |
| Cape.Daemon.WithoutResource | src/cape.c:581-606 | what each method does when the resource was not found |
| Cape.Daemon.ExecRscAction | src/pcmk_pe.c:220-310 | allocates an operation and executes it, as one Dispatch event |
| Cape.Daemon.RunActions | src/pcmk_pe.c:367-408 | the actions of a pass are dispatched in order, and the history grows by exactly what they complete or delete |
| Cape.Daemon.ProcessNextJob | src/pcmk_pe.c:367-408 | one pass is a NextJob event, a dispatch for each action and the end of the pass, or a NextJob alone when nothing was confirmed |
| Cape.Daemon.ProcessJob | src/cape.c:725-736 | processes, or asks again while the engine is busy |
| Cape.Daemon.ResourceActionCompletion | src/trans_ssh.c:571-589 | the transport's callback as one FlightDone event |
| Cape.Daemon.MonitorTimerFires | src/cape.c:470-491 | the monitor timer as one TimerFires event |
| HistoryKeys.KeysNeverCollide | src/cape.c:85-91 | two operations with the same key text are the same operation, when the names fit the buffer and method names have no underscore |
| HistoryKeys.SharedText | src/cape.c:85-91 | an operation shares its key text with another one if and only if its text fills the buffer |
| HistoryKeys.SignedShape | src/cape.c:85-91 | the interval printed as a signed number has no underscore and gives the 32-bit value back |
| HistoryKeys.DecimalRoundTrip | src/cape.c:85-91 | decimal digits give the number back |
| HistoryKeys.LastUnderscore | src/cape.c:85-91 | a text splits in one way at its last underscore |
| OpHistory.HistoryIsFold | src/cape.c:78-120 | after every sequence of executions and clears, an operation has an entry exactly when it ran since its resource was last cleared, with the latest exit code, time, digest and call id, and last_rc_change at the start of the trailing run of equal codes |
| OpHistory.NothingElse | src/cape.c:78-120 | every entry of the map is such an entry, filed under its own key |
| OpHistory.LatestHasLargestId | src/cape.c:114-117 | the operation that ran last has a larger call id than any other |
| OpHistory.CallIdsDistinct | src/cape.c:114-117 | no two entries of the map have the same call id |
| OpHistory.SaveReflects | src/cape.c:78-120 | one execution extends the summary |
| OpHistory.HistoryMap.OpHistorySave | src/cape.c:78-120 | makes or updates the entry in place |
| Cib.IdsDistinct | src/cf2pe.xsl:47-106 | primitive ids are pairwise distinct when services are distinct and no assembly name followed by an underscore is a prefix of another |
| Cib.PinnedToOwnAssembly | src/cf2pe.xsl:107-135 | exactly one location constraint names a primitive, and it pins it to the assembly it came from |
| Cib.PrefixedNamesClash | src/cf2pe.xsl:47-106 | two assemblies can have services with one id if and only if one name followed by an underscore begins the other so followed |
| Cib.IdTellsTag | src/cf2pe.xsl:47-106 | an id determines the assembly, the service and whether it is the configuration script |
| Cib.PrimitivesExactly | src/cf2pe.xsl:47-106 | the primitives are exactly those of the services and of the scripts of services that have one, each with its id, class, type, provider and parameters in order |
| Cib.LocationsExactly | src/cf2pe.xsl:107-135 | the location constraints are exactly one for each service and each script, naming its assembly |
| Ordering.OrderAcyclic | src/cf2pe.xsl:118-144 | for every configuration the generated order is acyclic if and only if there is no closed walk of waiting: along a dependency, or along one into a script and on to its service |
| Ordering.OrderAcyclicForServices | src/cf2pe.xsl:118-144 | when no dependency makes a script wait, the generated order is acyclic if and only if no closed walk follows the listed dependencies |
| Ordering.CfgDependencyCycles | src/cf2pe.xsl:118-144 | and it is cyclic whenever a script waits for its own service |
| Ordering.OrdersExactly | src/cf2pe.xsl:118-144 | the generated order holds a pair if and only if it is a listed dependency or the script and the service of one service that has a script |
| Ordering.Shorten | src/cf2pe.xsl:118-144 | a path of the generated order that begins with a dependency is a path of the user's order between the same ends |
| Ordering.Expand | src/cf2pe.xsl:118-144 | and back |
| Ordering.Rotate | src/cf2pe.xsl:118-144 | every cycle can be entered at a dependency |
| ResourceCreation.ResourcesCreate | src/cape.c:854-978 | the loop registers exactly the units of an assembly, each under its name, cut off at the buffer |
| ResourceCreation.SameResources | src/cape.c:854-978 | the names the daemon's loop registers for an assembly are exactly the ids of the primitives pinned to it |
| ResourceCreation.FindPeParameter | src/cape.c:747-803 | the two walks find the first primitive of that id and in it the first value of that name, or nothing |
| ResourceCreation.FindPrimitive | src/cape.c:780-791 | the first primitive with the id, or none has it |
| ResourceCreation.FindPair | src/cape.c:791-803 | the first value with the name, or none has it |
| ResourceCreation.ReferenceNodeFound | src/cape.c:806-852 | looking a parameter up under the registered name finds the value in the unit's own primitive if and only if the name was not cut off; then the assertion on it holds |
| ResourceCreation.LongNameNotFound | src/cape.c:844-846 | with a name that is too long the assertion fails |
| ResourceCreation.OwnHostMentioned | src/cape.c:583 | a resource's name always contains its own host's |
| ResourceCreation.NeighbourMentioned | src/cape.c:583 | and may contain another host's |
| AddressRefs.AlwaysCoherent | src/cape.c:280-350 | for every configuration whose names fit and every run without such a change, whenever an assembly is RUNNING the value generated for each parameter that refers to it is its current address or name |
| AddressRefs.AlwaysCurrent | src/cape.c:280-350 | the same by the events alone: when what was last said about an assembly is that it runs, the value is its name or the address it last became active with |
| AddressRefs.AsmReadOffRun | src/inst_ctrl.c:69-87 | in every run, the address and the state of an assembly are the latest |
| AddressRefs.PollsReadOffRun | src/cape.c:352-377 | in every run, the polls for an instance are those begun by restarts less the instances found |
| AddressRefs.ExampleRun | src/cape.c:280-350 | a configuration and a run to which that applies: the address reaches the document |
| AddressRefs.UpdateIsExact | src/cape.c:280-326 | an update sets exactly the values that refer to the assembly, each to what it stands for, and changes no other |
| AddressRefs.ReferenceRecorded | src/cape.c:806-852 | the last reference of a parameter is recorded, at the very value the style sheet generated for it |
| AddressRefs.ReferencesDistinct | src/cape.c:806-852 | no two recorded references share a value |
| AddressRefs.AddressChangesWhileRunning | src/inst_ctrl.c:69-87 | an event leaves the document right if and only if it does not change the address of a RUNNING assembly whose address is referred to |
| AddressRefs.ReportsWhilePolled | src/matahari.cpp:228-260 | for every assembly whose address is referred to, a run in which RUNNING is reported while the instance is polled for and the new address is never written |
| AddressRefs.StepKeeps | src/cape.c:327-366 | every event that keeps the contract keeps the document right |
| AddressRefs.PolicyDocument.constructor | src/cape.c:980-1025 | assemblies start UNKNOWN, each with one poll for its instance |
| AddressRefs.PolicyDocument.UpdateResource | src/cape.c:300-320 | the inner loop over the references of one resource |
| AddressRefs.PolicyDocument.NodeUpdateAddrInfo | src/cape.c:280-326 | the nested loops over resources and their references |
| AddressRefs.PolicyDocument.RecoverStateSet | src/cape.c:327-350 | becoming RUNNING updates the document before the state changes |
| AddressRefs.PolicyDocument.InstanceStateCompletion | src/inst_ctrl.c:69-87 | an active instance sets the address; otherwise the assembly is UNKNOWN and polled again |
| AsyncRpc.OneResponse | src/qmf_object.cpp:50-153 | in every run that keeps the contract, a request that was sent is answered at most once, and exactly once by the time its timer has fired; it is deleted exactly when reply and timer have both let go of it, unless its agent went away; nothing deleted is used |
| AsyncRpc.CallIsAnswered | src/qmf_object.cpp:90-122 | a call made while connected, in any run that keeps the contract: from then on its request is racing until it is answered, it is answered exactly once when its timer has fired, and deleted exactly when reply and timer have let go of it |
| AsyncRpc.CallSends | src/qmf_object.cpp:90-122 | a call while connected sends its request at once with correlator and timer; a call while not connected puts exactly it on the pending list; nothing else changes |
| AsyncRpc.ConnectedReadOffRun | src/qmf_object.cpp:166-198 | in every run, connected and having an agent are what the latest of connection, disconnection and deletion says |
| AsyncRpc.OneRunPerConnection | src/qmf_object.cpp:166-198 | in every run the jobs that will send the pending list are the connections made less the times it was sent |
| AsyncRpc.Race | src/qmf_object.cpp:50-153 | in either order the first of reply and timer answers and the second deletes; an exception after the timer answers again |
| AsyncRpc.ContractIsExact | src/qmf_object.cpp:124-153 | an event keeps the invariant if and only if it keeps the contract |
| AsyncRpc.PendingFault | src/qmf_object.cpp:70-88 | running the pending list uses a deleted request if and only if one on it has been deleted |
| AsyncRpc.PendingAreSent | src/qmf_object.cpp:70-88 | after a connection every request on the pending list is racing, each under its own correlator |
| AsyncRpc.NeverNotConnected | src/qmf_object.cpp:56-67 | in every run whatsoever, no request is answered as not connected, because one that waits for a connection has no timer |
| AsyncRpc.LateException | src/qmf_object.cpp:135-147 | a run in which one request is answered with a timeout and an exception |
| AsyncRpc.LateCancellation | src/qmf_agent.cpp:42-58 | a run in which one request is answered with a timeout and a cancellation |
| AsyncRpc.SecondConnection | src/qmf_object.cpp:70-88 | a run in which a second connection sends a deleted request |
| AsyncRpc.UnknownCorrelator | src/qmf_agent.cpp:107-122 | a run in which a reply with an unknown correlator makes the agent's destructor use a null reference |
| AsyncRpc.StepKeeps | src/qmf_object.cpp:50-206 | every event that keeps the contract keeps the invariant |
| AsyncRpc.ReplyKeeps | src/qmf_object.cpp:124-153 | a reply or an early exception keeps it |
| AsyncRpc.TimeOutKeeps | src/qmf_object.cpp:50-68 | a timer keeps it |
| AsyncRpc.AgentGoneKeeps | src/qmf_agent.cpp:42-58 | the end of an agent keeps it when every outstanding call is still racing |
| MatahariAnswers.AtMostTwoAnswers | src/qmf_object.cpp:124-153 | in every run in which no request is sent twice, late exceptions and cancellations included, a request is answered at most twice, and twice only if first with a timeout |
| MatahariOps.AnswersBalance | src/matahari.cpp:40-75 | whatever a request is answered with, the references of its operation stay right: a good answer drops both of the execution's, a single error keeps one for ever, and a second answer is the one that drops it |
| MatahariOps.ErrorAnswer | src/matahari.cpp:59-74 | an error completes the operation and gives up one reference |
| MatahariOps.StillAnswerable | src/matahari.cpp:59-74 | after an error the operation can be answered once more |
| AsyncRpc.QmfObject.constructor | src/qmf_object.h:70-71 | not connected and nothing asked for |
| AsyncRpc.QmfObject.CallMethodAsync | src/qmf_agent.cpp:60-105 | files the request under a fresh correlator and arms its timer with a reference |
| AsyncRpc.QmfObject.MethodCallAsync | src/qmf_object.cpp:90-122 | sends a new request, or keeps it for later |
| AsyncRpc.QmfObject.RunPendingCalls | src/qmf_object.cpp:70-88 | the loop sends every request on the pending list and leaves the list as it is |
| AsyncRpc.QmfObject.MethodCallTmo | src/qmf_object.cpp:50-68 | answers unless completed and drops the timer's reference |
| AsyncRpc.QmfObject.AgentProcessEvent | src/qmf_agent.cpp:107-128 | looks the correlator up, which makes a null entry for an unknown one, and erases a known one |
| AsyncRpc.QmfObject.AgentDestructor | src/qmf_agent.cpp:42-58 | the loop cancels every outstanding call once for each entry, without dropping a reference |
| Heartbeat.SilenceIsNoticed | src/matahari.cpp:84-111 | in every run with timers on time and under every policy, RUNNING implies good heartbeats and an armed check, a heartbeat since the last restart, and silence of no more than 24 seconds or an entry into RUNNING no more than 4 seconds ago |
| Heartbeat.BoundIsReached | src/matahari.cpp:84-111 | a run in which a node is RUNNING after 24 seconds of silence |
| Heartbeat.FailsExactly | src/matahari.cpp:196-260 | a running node fails at an event if and only if that is a heartbeat with a gap, or a look at the clock when the last heartbeat is more than 20 seconds old |
| Heartbeat.NoFalseAlarm | src/matahari.cpp:196-260 | a node whose heartbeats keep coming in 32-bit sequence, none more than 20 seconds old when the clock is looked at, stays RUNNING through every run |
| Heartbeat.NeverFailedFalsely | src/matahari.cpp:196-260 | in every run from the start, heartbeats numbered one after the other from any first number on, none more than 20 seconds old when the clock is looked at, never fail the node |
| Heartbeat.NotFailedAgain | src/matahari.cpp:196-260 | the same after every restart |
| Heartbeat.FailsReadOffRun | src/matahari.cpp:196-226 | in every run, a heartbeat fails a RUNNING node if and only if its number is more than one after that of the heartbeat before it in the run, or that one came more than 20 seconds ago |
| Heartbeat.RunsExactly | src/matahari.cpp:228-260 | a node that is not running starts to run if and only if it looks at its state with all three objects connected and good heartbeats |
| Heartbeat.SilenceReadOffRun | src/matahari.cpp:84-111 | the bound on silence by the run alone: its clock, its last heartbeat and the last time the node began to run |
| Heartbeat.StateMoves | src/matahari.cpp:228-260 | no event changes the state in any other way: a lost instance is UNKNOWN, a running node can only fail, any other one only run |
| Heartbeat.FoundReadOffRun | src/matahari.cpp:77-82 | in every run the connected objects are those found and not lost since the last restart |
| Heartbeat.RestartOrEscalate | src/matahari.cpp:184-194 | a restart forgets heartbeat, connections and check timer; an escalation forgets only the counted failures |
| Heartbeat.SkipIsSeen | src/matahari.cpp:209-216 | skipped heartbeats are seen at the next one if and only if its 32-bit number has not wrapped round |
| Heartbeat.NextIsNoGap | src/matahari.cpp:209-216 | the next number in 32-bit arithmetic is never a gap |
| Heartbeat.StepKeeps | src/matahari.cpp:84-260 | every event keeps the invariant |
| Heartbeat.CheckTimerKeeps | src/matahari.cpp:84-96 | a check re-arms itself in time |
| Heartbeat.RecvKeeps | src/matahari.cpp:196-226 | a heartbeat is accepted or marked bad |
| Heartbeat.Matahari.constructor | src/matahari.cpp:272-298 | no heartbeat, no connection, no timer |
| Heartbeat.Matahari.HeartbeatRecv | src/matahari.cpp:196-226 | judges one heartbeat |
| Heartbeat.Matahari.RecoverFailed | src/cape.c:352-377 | a failure restarts or escalates by the policy |
| Heartbeat.Matahari.CheckState | src/matahari.cpp:228-260 | fails a running node, or lets a ready one run |
| Heartbeat.Matahari.HeartbeatCheckTmo | src/matahari.cpp:84-96 | checks and re-arms while RUNNING |
| Heartbeat.Matahari.ConnectionEventHandler | src/matahari.cpp:77-82 | a found object makes the node look at its state |
| Heartbeat.Matahari.HostEventHandler | src/matahari.cpp:98-111 | receives a heartbeat, then looks at the state |

## Left out

- The insides of libssh2, libqb, libxml2, libxslt, Pacemaker and QMF: they are inputs or small contracts. The libqb stopwatch is modelled as a ring of N times with a running count.
- What libssh2, sockets and keys do while an SSH connection is established, and the sending of keepalives: only the states, jobs and timers of the transport are modelled, and a socket reports its connection once.
- The CIM, OpenStack and Deltacloud code, the HTTP and QMF front ends, the administration tools and the shell: plumbing around the parts modelled here.
- The exit code tables and reason strings, logging, stopwatch times that are only logged, and the event texts: settled by reading them.
- Parsing of the numbers in the recovery configuration and rounding of the float quotient: the numbers are given and times are compared exactly.
- Ownership of C strings and buffers other than operations, transports and requests: strings are values, and memory that is never freed is not counted.
- Constant parts of the generated document, monitor intervals and operations of primitives: they do not depend on names or order.
- Documents with several parameters elements in one service, or with elements other than the documented ones.
- Cape.Daemon.RecoverStateSet: a failed resource loses its timer whether it is restarted or escalated; the choice between the two, made in Recover, changes nothing else in this state.
- Cape.Daemon: operations are records in a sequence, so an operation is named by its number and not by an address; a freed one stays in the sequence with no references. An execution whose resource is not there is not recorded, since it is a fault.
- OpHistory.HistoryMap.OpHistorySave: call ids do not wrap round.
- Recover.Stopwatch.TimeSplitGet: says nothing of a difference whose older time has been overwritten, which the daemon never asks for.
- AsyncRpc.QmfObject.CallMethodAsync: correlators are fresh, and one agent at a time serves an object; the arguments of a call are not modelled.
- AsyncRpc.QmfObject.Connect: the moment inside a connection when the object is connected but has no agent yet is not a state of its own.
- Heartbeat.SilenceIsNoticed: timers fire on time; a loop that is held up adds its delay to the bounds.
- AddressRefs.AlwaysCoherent: a reference parameter named like the script's own url is excluded, since the daemon finds the url first; parameter names of a service are distinct.
- MatahariOps.AnswersBalance: the answers to one request are applied one after the other, without other events of the daemon between them; an operation that recurs and expects the unknown error is excluded.
