/**
  One remote command over an SSH channel. The executor is a switch that falls through
  its cases and leaves whenever libssh2 answers EAGAIN, to be resumed by a later job.
  It is compared with the script a blocking library would run from top to bottom.
 */
module SshExec {

  /** Channel steps in the order of enum ssh_exec_state, which is not the order they run in. */
  datatype Step = Open | Exec | Read | ReadStderr | SendEof | WaitEof | Close | WaitClosed | Free

  const SCRIPT: seq<Step> := [Open, Exec, SendEof, WaitEof, Close, Read, ReadStderr, WaitClosed, Free]

  /** Steps left to run, counting this one: the order of progress. */
  function Rank(s: Step): nat {
    match s
    case Open => 8
    case Exec => 7
    case SendEof => 6
    case WaitEof => 5
    case Close => 4
    case Read => 3
    case ReadStderr => 2
    case WaitClosed => 1
    case Free => 0
  }

  function Next(s: Step): (n: Step)
    requires s != Free
    ensures Rank(n) + 1 == Rank(s)
  {
    match s
    case Open => Exec
    case Exec => SendEof
    case SendEof => WaitEof
    case WaitEof => Close
    case Close => Read
    case Read => ReadStderr
    case ReadStderr => WaitClosed
    case WaitClosed => Free
  }

  /** The steps that resuming at `s` still has to run. */
  function From(s: Step): (steps: seq<Step>)
    ensures steps != [] && steps[0] == s
    decreases Rank(s)
  {
    if s == Free then [Free] else [s] + From(Next(s))
  }

  lemma ResumeAtOpenRunsAll()
    ensures From(Open) == SCRIPT
  {
    assert From(Free) == [Free];
    assert From(ReadStderr) == [ReadStderr, WaitClosed, Free];
    assert From(Close) == [Close, Read, ReadStderr, WaitClosed, Free];
    assert From(SendEof) == [SendEof, WaitEof, Close, Read, ReadStderr, WaitClosed, Free];
  }

  /** What one libssh2 call answers: not yet, success, or any other error. */
  datatype Answer = Again | Good | Bad

  datatype Result =
    | Waiting                          // the channel has not answered yet
    | OpenRefused                      // no channel: the job returns and is never queued again
    | Aborted                          // assert(0) in a build with assertions
    | Finished(failed: bool, rc: int)  // the operation is completed; rc is delivered unless failed

  /** The calls that succeeded, in order, and how it ended. */
  datatype Trace = Trace(calls: seq<Step>, result: Result) {
    function After(calls: seq<Step>): Trace {
      Trace(calls + this.calls, result)
    }
  }

  /** The environment of one operation: the exit status the remote command ends with,
      and whether assertions are compiled out. */
  datatype Env = Env(status: int, ndebug: bool)

  /** The answers of a library that blocks instead of answering EAGAIN. */
  function Blocking(answers: seq<Answer>): seq<bool> {
    if answers == [] then []
    else if answers[0] == Again then Blocking(answers[1..])
    else [answers[0] == Good] + Blocking(answers[1..])
  }

  function Agains(answers: seq<Answer>): nat {
    if answers == [] then 0
    else (if answers[0] == Again then 1 else 0) + Agains(answers[1..])
  }

  /** The straight-line script: each step once, and straight to Free after an error. */
  function Script(env: Env, todo: seq<Step>, failed: bool, answers: seq<bool>): Trace
    decreases |answers|, |todo|
  {
    if todo == [] then Trace([], Finished(failed, if failed then 0 else env.status))
    else if answers == [] then Trace([], Waiting)
    else if answers[0] then Script(env, todo[1..], failed, answers[1..]).After([todo[0]])
    else if todo[0] == Open then Trace([], OpenRefused)
    else if !env.ndebug then Trace([], Aborted)
    else if todo[0] == Free then Script(env, [], failed, answers[1..])
    else Script(env, [Free], true, answers[1..])
  }

  /** No step repeated or skipped: the calls are a prefix of the steps, apart from one jump to Free. */
  ghost predicate InOrder(calls: seq<Step>, steps: seq<Step>) {
    calls <= steps || (calls != [] && calls[|calls| - 1] == Free && calls[..|calls| - 1] <= steps)
  }

  /** Only the last step frees the channel. */
  ghost predicate FreesLast(steps: seq<Step>) {
    forall i :: 0 <= i < |steps| - 1 ==> steps[i] != Free
  }

  lemma InOrderFrom(x: Step, rest: seq<Step>, tail: seq<Step>)
    ensures InOrder(rest, tail) ==> InOrder([x] + rest, [x] + tail)
    ensures tail != [] && rest == tail[..|tail| - 1] ==> [x] + rest == ([x] + tail)[..|tail|]
  {
    var calls := [x] + rest;
    if rest != [] {
      assert calls[|calls| - 1] == rest[|rest| - 1] && calls[..|calls| - 1] == [x] + rest[..|rest| - 1];
    }
  }

  /** The calls were all the steps, or all but the last one, which frees the channel. */
  ghost predicate AllDone(calls: seq<Step>, steps: seq<Step>) {
    calls == steps || (steps != [] && calls == steps[..|steps| - 1])
  }

  lemma {:induction false} StepsInOrder(env: Env, todo: seq<Step>, answers: seq<bool>)
    requires FreesLast(todo)
    ensures var t := Script(env, todo, false, answers);
            && InOrder(t.calls, todo)
            && (t.result.Finished? && !t.result.failed ==> t.result.rc == env.status && AllDone(t.calls, todo))
            && (t.result.OpenRefused? ==> |t.calls| < |todo| && todo[|t.calls|] == Open)
            && (t.result.Aborted? ==> !env.ndebug)
  {
    if todo != [] && answers != [] {
      if answers[0] {
        StepsInOrder(env, todo[1..], answers[1..]);
        InOrderFrom(todo[0], Script(env, todo[1..], false, answers[1..]).calls, todo[1..]);
        assert todo == [todo[0]] + todo[1..];
      } else if env.ndebug && todo[0] != Open && todo[0] != Free {
        FreeOnly(env, answers[1..]);
      }
    }
  }

  lemma {:induction false} FreeOnly(env: Env, answers: seq<bool>)
    ensures var t := Script(env, [Free], true, answers);
            && (t.calls == [] || t.calls == [Free])
            && !t.result.OpenRefused?
            && (t.result.Finished? ==> t.result.failed)
            && (t.result.Aborted? ==> !env.ndebug)
  {
  }

  /** What one call answers decides how the script goes on. */
  lemma {:induction false} CallDecides(env: Env, todo: seq<Step>, failed: bool, done: seq<Step>, answers: seq<Answer>)
    requires todo != [] && answers != []
    ensures var (t, rest) := (Script(env, todo, failed, Blocking(answers)).After(done), Blocking(answers[1..]));
            match answers[0]
            case Again => t == Script(env, todo, failed, rest).After(done)
            case Good => t == Script(env, todo[1..], failed, rest).After(done + [todo[0]])
            case Bad =>
              if todo[0] == Open then t == Trace(done, OpenRefused)
              else if !env.ndebug then t == Trace(done, Aborted)
              else if todo[0] == Free then t == Trace(done, Finished(failed, if failed then 0 else env.status))
              else t == Script(env, [Free], true, rest).After(done)
  {
    if answers[0] != Again {
      AnswerDecides(env, todo, failed, done, answers[0] == Good, Blocking(answers[1..]));
    }
  }

  lemma {:induction false} AnswerDecides(env: Env, todo: seq<Step>, failed: bool, done: seq<Step>, good: bool, rest: seq<bool>)
    requires todo != []
    ensures var t := Script(env, todo, failed, [good] + rest).After(done);
            if good then t == Script(env, todo[1..], failed, rest).After(done + [todo[0]])
            else if todo[0] == Open then t == Trace(done, OpenRefused)
            else if !env.ndebug then t == Trace(done, Aborted)
            else if todo[0] == Free then t == Trace(done, Finished(failed, if failed then 0 else env.status))
            else t == Script(env, [Free], true, rest).After(done)
  {
    assert ([good] + rest)[1..] == rest;
    if good {
      var calls := Script(env, todo[1..], failed, rest).calls;
      assert done + ([todo[0]] + calls) == (done + [todo[0]]) + calls;
    }
  }

  /** The whole script: a status is delivered only after every step up to the close was answered,
      and it is the command's own; a refused channel means nothing was called before. */
  lemma {:induction false} ScriptInOrder(env: Env, answers: seq<bool>)
    ensures var t := Script(env, SCRIPT, false, answers);
            && InOrder(t.calls, SCRIPT)
            && (t.result.Finished? && !t.result.failed ==>
                  t.result.rc == env.status && SCRIPT[..8] <= t.calls <= SCRIPT)
            && (t.result.OpenRefused? ==> t.calls == [])
            && (t.result.Aborted? ==> !env.ndebug)
  {
    StepsInOrder(env, SCRIPT, answers);
  }

  /** libssh2 as an arbitrary stream of answers; a stream that has run out keeps answering EAGAIN. */
  class Session {
    var answers: seq<Answer>
    var calls: seq<Step>

    constructor (answers: seq<Answer>)
      ensures this.answers == answers && calls == []
    {
      this.answers, calls := answers, [];
    }

    method Call(step: Step) returns (a: Answer)
      modifies this
      ensures old(answers) == [] ==> a == Again && answers == []
      ensures old(answers) != [] ==> a == old(answers)[0] && answers == old(answers)[1..]
      ensures calls == if a == Good then old(calls) + [step] else old(calls)
    {
      if answers == [] {
        return Again;
      }
      a := answers[0];
      answers := answers[1..];
      if a == Good {
        calls := calls + [step];
      }
    }
  }

  /** What is to come, and how many EAGAINs and answers are left. */
  datatype Moment = Moment(forecast: Trace, agains: nat, left: nat) {
    predicate Follows(was: Moment) {
      forecast == was.forecast && agains == was.agains && left <= was.left
    }

    /** One EAGAIN has been used up, or the stream has run out. */
    predicate Waited(was: Moment) {
      && forecast == was.forecast
      && if was.agains == 0 then left == 0 else left < was.left && agains + 1 == was.agains
    }
  }

  /** How one job of the executor ends. */
  datatype Verdict = Repeat | Refused | Abort | Complete

  class SshOp {
    var execState: Step
    var failed: bool
    var rc: int

    constructor ()
      ensures execState == Open && !failed && rc == 0
    {
      execState, failed, rc := Open, false, 0;
    }

    ghost predicate Valid(env: Env)
      reads this
    {
      && (failed ==> execState == Free)
      && rc == if execState == Free && !failed then env.status else 0
    }

    /** Everything done so far followed by everything the blocking script would still do. */
    ghost function Forecast(env: Env, lib: Session): Trace
      reads this, lib
    {
      Script(env, From(execState), failed, Blocking(lib.answers)).After(lib.calls)
    }

    ghost function Now(env: Env, lib: Session): Moment
      reads this, lib
    {
      Moment(Forecast(env, lib), Agains(lib.answers), |lib.answers|)
    }

    /** How a job that started at `was` and ends with `v` has carried out what was to come. */
    ghost predicate Ends(v: Verdict, env: Env, lib: Session, was: Moment)
      reads this, lib
    {
      match v
      case Repeat => Now(env, lib).Waited(was)
      case Refused => was.forecast == Trace(lib.calls, OpenRefused)
      case Abort => was.forecast == Trace(lib.calls, Aborted)
      case Complete => was.forecast == Trace(lib.calls, Finished(failed, rc))
    }

    /** SSH_CHANNEL_OPEN, the one case whose error leaves the operation as it is. */
    method OpenChannel(env: Env, lib: Session) returns (leave: bool, v: Verdict)
      requires Valid(env) && execState == Open
      modifies this, lib
      ensures Valid(env)
      ensures if leave then Ends(v, env, lib, old(Now(env, lib)))
              else execState == Exec && Now(env, lib).Follows(old(Now(env, lib)))
    {
      if lib.answers != [] {
        CallDecides(env, From(Open), failed, lib.calls, lib.answers);
      }
      var a := lib.Call(Open);
      if a == Again { return true, Repeat; }
      if a == Bad { return true, Refused; }
      execState := Exec;
      return false, Repeat;
    }

    /** The shape shared by the cases between the first and the last: call, leave on EAGAIN,
        go to Free on an error, otherwise go on to `next`. */
    method Advance(env: Env, lib: Session, next: Step, ghost was: Moment) returns (leave: bool, v: Verdict)
      requires Valid(env) && execState != Open && execState != Free && next == Next(execState)
      requires Now(env, lib).Follows(was)
      modifies this, lib
      ensures Valid(env)
      ensures if leave then Ends(v, env, lib, was)
              else execState in {next, Free} && Now(env, lib).Follows(was)
    {
      if lib.answers != [] {
        CallDecides(env, From(execState), failed, lib.calls, lib.answers);
      }
      var a := lib.Call(execState);
      if a == Again { return true, Repeat; }
      if a == Bad {
        if !env.ndebug { return true, Abort; }
        failed := true;
        execState := Free;
        return false, Repeat;
      }
      if next == Free {
        rc := env.status;
      }
      execState := next;
      return false, Repeat;
    }

    /** SSH_CHANNEL_FREE, the case every path reaches. */
    method FreeChannel(env: Env, lib: Session, ghost was: Moment) returns (v: Verdict)
      requires Valid(env) && execState == Free && Now(env, lib).Follows(was)
      modifies this, lib
      ensures Valid(env) && Ends(v, env, lib, was)
    {
      if lib.answers != [] {
        CallDecides(env, From(Free), failed, lib.calls, lib.answers);
      }
      var a := lib.Call(Free);
      if a == Again { return Repeat; }
      if a == Bad && !env.ndebug { return Abort; }
      assert lib.calls + [] == lib.calls;
      return Complete;
    }

    /** assembly_ssh_exec: one job. Every case falls through to the next one. */
    method AssemblySshExec(env: Env, lib: Session) returns (v: Verdict)
      requires Valid(env)
      modifies this, lib
      ensures Valid(env) && Ends(v, env, lib, old(Now(env, lib)))
    {
      ghost var was := Now(env, lib);
      var leave;
      if execState == Open {
        leave, v := OpenChannel(env, lib);
        if leave { return; }
      }
      if execState == Exec {
        leave, v := Advance(env, lib, SendEof, was);
        if leave { return; }
      }
      if execState == SendEof {
        leave, v := Advance(env, lib, WaitEof, was);
        if leave { return; }
      }
      if execState == WaitEof {
        leave, v := Advance(env, lib, Close, was);
        if leave { return; }
      }
      v := AfterEof(env, lib, was);
    }

    /** The rest of the switch, from SSH_CHANNEL_CLOSE on. */
    method AfterEof(env: Env, lib: Session, ghost was: Moment) returns (v: Verdict)
      requires Valid(env) && Rank(execState) <= Rank(Close) && Now(env, lib).Follows(was)
      modifies this, lib
      ensures Valid(env) && Ends(v, env, lib, was)
    {
      var leave;
      if execState == Close {
        leave, v := Advance(env, lib, Read, was);
        if leave { return; }
      }
      if execState == Read {
        leave, v := Advance(env, lib, ReadStderr, was);
        if leave { return; }
      }
      if execState == ReadStderr {
        leave, v := Advance(env, lib, WaitClosed, was);
        if leave { return; }
      }
      if execState == WaitClosed {
        leave, v := Advance(env, lib, Free, was);
        if leave { return; }
      }
      v := FreeChannel(env, lib, was);
    }
  }

  /** Dispatch the executor until it stops asking to be queued again. Whatever the pattern of
      EAGAIN answers, the outcome is the blocking script's, in at most one job more than EAGAINs. */
  method RunOperation(env: Env, answers: seq<Answer>) returns (calls: seq<Step>, result: Result, jobs: nat)
    ensures Trace(calls, result) == Script(env, SCRIPT, false, Blocking(answers))
    ensures jobs <= Agains(answers) + 1
  {
    var lib := new Session(answers);
    var op := new SshOp();
    jobs := 0;
    ResumeAtOpenRunsAll();
    assert forall t: Trace :: t.After([]) == t;
    while true
      invariant op.Valid(env)
      invariant op.Forecast(env, lib) == Script(env, SCRIPT, false, Blocking(answers))
      invariant jobs + Agains(lib.answers) <= Agains(answers)
      decreases |lib.answers|
    {
      var v := op.AssemblySshExec(env, lib);
      jobs := jobs + 1;
      match v
      case Refused => return lib.calls, OpenRefused, jobs;
      case Abort => return lib.calls, Aborted, jobs;
      case Complete => return lib.calls, Finished(op.failed, op.rc), jobs;
      case Repeat =>
        if lib.answers == [] {
          return lib.calls, Waiting, jobs;
        }
    }
  }
}
