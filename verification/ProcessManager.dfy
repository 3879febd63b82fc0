/** The owner of one OS process at a time: start, stop request, kill and the single wait, and the bounded persist retry. */
module ProcessManager {
  import opened Wrappers
  import LaunchState
  import LaunchSteps

  type Generation = int

  datatype State = Stopped | Running | Stopping | Exited | Failed

  datatype ExitClass = Normal | Failure | Killed | Timeout | Context | Error | Signaled

  datatype Status = Status(state: State, pid: int, exitCode: Option<int>, exitClass: Option<ExitClass>, lastError: string)

  /* ---- answers from outside ---- */

  /** What the kernel makes of a start: refused before anything ran, failed to execute, ran but could not be placed under
  control (and was killed and reaped on the spot), or running. */
  datatype StartAnswer = Invalid(error: string) | ExecFailed(error: string) | NotControlled(error: string) | Runs(pid: int)

  /** How cmd.Wait ended. */
  datatype WaitError = NoError | WasCancelled(text: string) | WasKilled(text: string) | OtherError(text: string)

  datatype KillAnswer = Accepted | AlreadyGone | KernelRefused

  /** How the process ended, as its waiter sees it. */
  datatype Exit = Exit(err: WaitError, exitCode: Option<int>, signaled: bool)

  /** The wait after the graceful signal, and the one after the forced kill. */
  datatype FirstWait = ExitsInTime(exit: Exit) | TimesOut | GivesUp
  datatype SecondWait = ExitsLate(exit: Exit) | GivesUpLate

  datatype StopError = GracefulFailed | ForceFailed | ContextDone

  /** Why the process ended: a requested stop first, then a signal, then the exit code, then the error of the wait. */
  function ClassOf(stopRequested: bool, signaled: bool, exitCode: Option<int>, err: WaitError): ExitClass {
    if stopRequested || signaled then Signaled
    else if exitCode.Some? then (if exitCode.value == 0 then Normal else Failure)
    else match err
      case NoError => Normal
      case WasCancelled(_) => Context
      case WasKilled(_) => Killed
      case OtherError(_) => Error
  }

  /** The instance state that wait() derives from the exit class. */
  function TargetPhase(class_: ExitClass): LaunchState.Phase {
    match class_
    case Normal => LaunchState.Exited
    case Killed => LaunchState.Exited
    case Signaled => LaunchState.Exited
    case Context => LaunchState.Exited
    case Timeout => LaunchState.Failed
    case Error => LaunchState.Failed
    case Failure => LaunchState.Failed
  }

  /** A process that was asked to stop ends as exited whatever its exit code; otherwise one that reports a non-zero code
  without a signal ends as failed, and one that reports zero as exited. */
  lemma RequestedStopsAreNotFailures(stopRequested: bool, signaled: bool, exitCode: Option<int>, err: WaitError)
    ensures var phase := TargetPhase(ClassOf(stopRequested, signaled, exitCode, err));
            && phase.Terminal()
            && (stopRequested ==> phase.Exited?)
            && (phase.Failed? <==> !stopRequested && !signaled && if exitCode.Some? then exitCode.value != 0 else err.OtherError?)
  {
  }

  class Manager {
    var status: Status
    var cmd: Option<Generation>
    var control: Option<Generation>
    var done: Option<Generation>      // the channel, named by the generation it was made for
    var stopReq: bool
    var started: nat                  // generations started so far; generation g is the one started as number g
    var closed: seq<Generation>       // every close of a done channel, in order

    /** The Manager owns exactly the last generation or none; every channel but the owned one's has been closed, once. */
    ghost predicate Valid()
      reads this
    {
      && cmd == control
      && (cmd.Some? ==> started > 0 && cmd.value == started - 1 && (status.state.Running? || status.state.Stopping?))
      && (cmd.None? ==> !status.state.Running? && !status.state.Stopping?)
      && done == (if started > 0 then Some(started - 1) else None)
      && closed == seq(if cmd.Some? then started - 1 else started, i => i)
    }

    constructor ()
      ensures Valid() && cmd.None? && started == 0 && closed == [] && status == Status(Stopped, 0, None, None, "")
    {
      status, cmd, control, done, stopReq, started, closed := Status(Stopped, 0, None, None, ""), None, None, None, false, 0, [];
    }

    /** Start; refused while a process is owned. A failed start leaves no process owned. */
    method Start(executable: string, answer: StartAnswer) returns (ok: bool)
      requires Valid()
      modifies this
      ensures Valid()
      ensures ok <==> old(cmd).None? && executable != "" && answer.Runs?
      ensures ok ==> cmd == Some(old(started)) && status == Status(Running, answer.pid, None, None, "") && !stopReq
      ensures started == if ok then old(started) + 1 else old(started)
      ensures !ok ==> cmd == old(cmd) && done == old(done)
      ensures !ok && (old(cmd).Some? || executable == "" || answer.Invalid?) ==> status == old(status)
      ensures !ok && old(cmd).None? && executable != "" && !answer.Invalid? ==> status == Status(Failed, 0, None, Some(Error), answer.error)
      ensures closed == old(closed)
    {
      if cmd.Some? { return false; }
      if executable == "" { return false; }
      match answer {
        case Invalid(_) => return false;
        case ExecFailed(error) =>
          status := Status(Failed, 0, None, Some(Error), error);
          return false;
        case NotControlled(error) =>
          status := Status(Failed, 0, None, Some(Error), error);
          return false;
        case Runs(pid) =>
          cmd, control, done := Some(started), Some(started), Some(started);
          stopReq := false;
          status := Status(Running, pid, None, None, "");
          started := started + 1;
          return true;
      }
    }

    /** The locked part of Stop: the request is recorded and the channel to wait on is taken; nothing owned needs no stop. */
    method RequestStop() returns (waitOn: Option<Generation>)
      requires Valid()
      modifies this`status, this`stopReq
      ensures Valid()
      ensures waitOn == cmd
      ensures cmd.Some? ==> stopReq && status == old(status).(state := Stopping)
      ensures cmd.None? ==> stopReq == old(stopReq) && status == old(status)
    {
      if cmd.None? { return None; }
      status := status.(state := Stopping);
      stopReq := true;
      return done;
    }

    /** Stop: the request, the graceful signal, and up to three answers of the waits. While Stop waits its caller keeps others from starting, so
    the one thing that can happen to the Manager is that its own waiter reaps the process. A nil result means that nothing is owned any more. */
    method Stop(graceful: bool, first: FirstWait, force: bool, second: SecondWait) returns (r: Option<StopError>)
      requires Valid()
      modifies this
      ensures Valid() && started == old(started) && done == old(done)
      ensures r.None? ==> cmd.None?
      ensures r == Some(ContextDone) ==> cmd == old(cmd) && cmd.Some? && status == old(status).(state := Stopping) && closed == old(closed)
      ensures r.None? <==> old(cmd).None? || (graceful && (first.ExitsInTime? || (first.TimesOut? && force && second.ExitsLate?)))
      ensures old(cmd).None? ==> status == old(status) && closed == old(closed) && stopReq == old(stopReq)
      ensures old(cmd).Some? ==> stopReq
      ensures old(cmd).Some? && cmd.None? ==>
                closed == old(closed) + [old(cmd).value] && status.state.Exited? && status.exitClass == Some(Signaled)
    {
      var waitOn := RequestStop();
      if waitOn.None? { return None; }
      match first {
        case GivesUp => return Some(ContextDone);
        case ExitsInTime(e) =>
          OwnedIsOpen();
          Reaped(waitOn.value, e.err, e.exitCode, e.signaled);
          return if graceful then None else Some(GracefulFailed);
        case TimesOut =>
          match second {
            case GivesUpLate => return Some(ContextDone);
            case ExitsLate(e) =>
              OwnedIsOpen();
              Reaped(waitOn.value, e.err, e.exitCode, e.signaled);
              return if !graceful then Some(GracefulFailed) else if !force then Some(ForceFailed) else None;
          }
      }
    }

    lemma OwnedIsOpen()
      requires Valid() && cmd.Some?
      ensures cmd.value !in closed
    {
      Counted(started - 1, cmd.value);
    }

    /** Kill asks the kernel only while a process is owned. An accepted kill changes nothing here. */
    method Kill(answer: KillAnswer) returns (r: KillAnswer)
      requires Valid()
      ensures r == if cmd.None? then AlreadyGone else answer
    {
      if control.None? { return AlreadyGone; }
      return answer;
    }

    /** wait, of the generation whose process has been reaped: once per generation, by its own goroutine. The process is
    always still the current one, so the status is always updated and the channel closed is its own. */
    method Reaped(g: Generation, err: WaitError, exitCode: Option<int>, signaled: bool)
      requires Valid() && 0 <= g < started && g !in closed
      modifies this
      ensures Valid()
      ensures old(cmd) == Some(g) && old(done) == Some(g)
      ensures cmd.None? && closed == old(closed) + [g]
      ensures started == old(started) && done == old(done) && stopReq == old(stopReq)
      ensures status.state.Exited? && status.exitCode == exitCode && status.pid == old(status).pid
      ensures status.exitClass == Some(ClassOf(stopReq, signaled, exitCode, err))
      ensures status.lastError == if old(status).lastError == "" && !err.NoError? then err.text else old(status).lastError
    {
      OpenGenerationIsCurrent(g);
      var exitClass := Normal;
      match err {
        case NoError =>
        case WasCancelled(_) => exitClass := Context;
        case WasKilled(_) => exitClass := Killed;
        case OtherError(_) => exitClass := Error;
      }
      if stopReq {
        exitClass := Signaled;
      } else if signaled {
        exitClass := Signaled;
      } else if exitCode.Some? && exitCode.value == 0 {
        exitClass := Normal;
      } else if exitCode.Some? && exitCode.value != 0 {
        exitClass := Failure;
      }
      if cmd == Some(g) {
        status := status.(state := Exited, exitCode := exitCode, exitClass := Some(exitClass));
        if !err.NoError? && status.lastError == "" { status := status.(lastError := err.text); }
        cmd, control := None, None;
      }
      closed := closed + [done.value];
    }

    lemma OpenGenerationIsCurrent(g: Generation)
      requires Valid() && 0 <= g < started && g !in closed
      ensures cmd == Some(g)
    {
      Counted(if cmd.Some? then started - 1 else started, g);
    }

    /** Over the whole life of a Manager each started generation closes its channel at most once, and it has closed it
    exactly when its process is no longer owned. */
    lemma ClosedOnce(g: Generation)
      requires Valid() && 0 <= g < started
      ensures multiset(closed)[g] == if cmd == Some(g) then 0 else 1
    {
      Ascending(|closed|, g);
      assert closed == seq(|closed|, i => i);
    }
  }

  lemma Counted(n: nat, g: int)
    ensures g in seq(n, i => i) <==> 0 <= g < n
  {
    if 0 <= g < n { assert seq(n, i => i)[g] == g; }
  }

  lemma {:induction false} Ascending(n: nat, g: int)
    ensures multiset(seq(n, i => i))[g] == if 0 <= g < n then 1 else 0
  {
    if n > 0 {
      Ascending(n - 1, g);
      assert seq(n, i => i) == seq(n - 1, i => i) + [n - 1];
    }
  }

  /* ---- the bounded persist retry ---- */

  datatype Attempt = Stored | Transient | Permanent

  /** Attempt k is made: the earlier ones failed transiently and no cancellation was seen before or between them. */
  predicate Reached(persist: nat -> Attempt, cancelled: nat -> bool, interrupted: nat -> bool, k: nat) {
    && (forall j :: 0 <= j < k ==> persist(j).Transient? && !interrupted(j))
    && (forall j :: 0 <= j <= k ==> !cancelled(j))
  }

  /** persistWithRetry: `cancelled` answers the check before an attempt, `interrupted` the wait after it. */
  method PersistWithRetry(persist: nat -> Attempt, cancelled: nat -> bool, interrupted: nat -> bool) returns (ok: bool, attempts: nat)
    ensures attempts <= LaunchSteps.PersistRetryAttempts
    ensures forall k: nat :: k < LaunchSteps.PersistRetryAttempts ==> (k < attempts <==> Reached(persist, cancelled, interrupted, k))
    ensures ok <==> attempts > 0 && persist(attempts - 1).Stored?
    ensures ok <==> exists k: nat :: k < LaunchSteps.PersistRetryAttempts && Reached(persist, cancelled, interrupted, k) && persist(k).Stored?
  {
    attempts := 0;
    while attempts < LaunchSteps.PersistRetryAttempts
      invariant attempts <= LaunchSteps.PersistRetryAttempts
      invariant forall j :: 0 <= j < attempts ==> persist(j).Transient? && !cancelled(j)
      invariant forall j :: 0 <= j < attempts ==> j < LaunchSteps.PersistRetryAttempts - 1 ==> !interrupted(j)
    {
      if cancelled(attempts) { return false, attempts; }
      var answer := persist(attempts);
      attempts := attempts + 1;
      if answer.Stored? {
        assert Reached(persist, cancelled, interrupted, attempts - 1);
        return true, attempts;
      }
      if answer.Permanent? { return false, attempts; }
      if attempts < LaunchSteps.PersistRetryAttempts && interrupted(attempts - 1) { return false, attempts; }
    }
    return false, attempts;
  }
}
