/** Killing an orphan: a strict identity check before every signal, and no success without an observed exit. */
module OrphanKill {
  import opened Wrappers
  import LaunchState

  type Phase = LaunchState.Phase

  /** The durable record of one launch instance. A missing start time is the zero time. */
  datatype Instance = Instance(phase: Phase, pid: int, executable: string, startedAt: Option<int>,
                               exitClass: string, lastError: string, recoveryReason: string)

  datatype Identity = Identity(executable: string, startTime: Option<int>)

  /* ---- answers from outside ---- */

  datatype Probe = Alive | Gone | ProbeError
  datatype SignalAnswer = Accepted | AlreadyGone | AccessDenied | SignalError
  datatype Signal = Graceful | Force

  /** What the supervisor did and was told, in order. */
  datatype Event = Probed(probe: Probe) | Checked(confirmed: bool) | Signalled(signal: Signal, answer: SignalAnswer) | Stored(phase: Phase, ok: bool)

  /** Every answer may depend on everything that happened before. */
  datatype World = World(
    alive: seq<Event> -> Probe,
    identity: seq<Event> -> Option<Identity>,
    signal: (seq<Event>, Signal) -> SignalAnswer,
    update: seq<Event> -> bool,
    deadline: seq<Event> -> bool,
    cancelled: seq<Event> -> bool,
    samePath: (string, string) -> bool)

  /** Nanoseconds. */
  const TIME_TOLERANCE: int := 5_000_000_000

  /** Executable paths equal, and start times present on both sides and equal up to the tolerance. */
  predicate VerifyIdentityForKill(inst: Instance, id: Identity, samePath: (string, string) -> bool) {
    && id.executable != "" && inst.executable != "" && samePath(inst.executable, id.executable)
    && id.startTime.Some? && inst.startedAt.Some?
    && -TIME_TOLERANCE <= inst.startedAt.value - id.startTime.value <= TIME_TOLERANCE
  }

  datatype Outcome = Terminated | Reconciled
  datatype Reason = Sigterm | Sigkill | TerminateProcess | PidGone | IdentityUnconfirmed | InsufficientPrivilege | Unconfirmed
  datatype KillError = NotFound | NotOrphan | PersistFailed
  datatype KillResult = Done(outcome: Outcome, reason: Reason) | Refused(reason: Reason) | Failed(error: KillError)

  /** The process now found under the pid passes the strict check. */
  predicate IsConfirmed(world: World, h: seq<Event>, inst: Instance) {
    world.identity(h).Some? && VerifyIdentityForKill(inst, world.identity(h).value, world.samePath)
  }

  /* ---- what a history must satisfy ---- */

  predicate Continues(h: seq<Event>, e: Event, g: seq<Event>) { g == h + [e] }

  /** A successful strict check with no signal after it. */
  predicate Armed(h: seq<Event>) {
    exists j :: 0 <= j < |h| && h[j] == Checked(true) && forall k :: j < k < |h| ==> !h[k].Signalled?
  }

  /** Every signal follows a successful strict check, with no other signal in between. */
  predicate Disciplined(h: seq<Event>) {
    forall i :: 0 <= i < |h| && h[i].Signalled? ==> Armed(h[..i])
  }

  predicate AcceptedSignal(h: seq<Event>, s: Signal) {
    exists i :: 0 <= i < |h| && h[i] == Signalled(s, Accepted)
  }

  predicate Absent(e: Event) { e == Probed(Gone) || (e.Signalled? && e.answer.AlreadyGone?) }

  /** An accepted signal, and later an observation that the process is gone. */
  predicate ConfirmedKill(h: seq<Event>, s: Signal) {
    exists i, j :: 0 <= i < j < |h| && h[i] == Signalled(s, Accepted) && Absent(h[j])
  }

  function Signals(h: seq<Event>): nat {
    if h == [] then 0 else Signals(h[..|h| - 1]) + (if h[|h| - 1].Signalled? then 1 else 0)
  }

  /** Nothing was killed: no signal of the call was accepted. */
  predicate NoneAccepted(h: seq<Event>) { forall i :: 0 <= i < |h| && h[i].Signalled? ==> !h[i].answer.Accepted? }

  /** The kernel denied a signal. */
  predicate Denied(h: seq<Event>) { exists i :: 0 <= i < |h| && h[i].Signalled? && h[i].answer.AccessDenied? }

  /** A strict check failed. */
  predicate Mismatched(h: seq<Event>) { exists i :: 0 <= i < |h| && h[i] == Checked(false) }

  /** The process was observed to be gone. */
  predicate Absence(h: seq<Event>) { exists i :: 0 <= i < |h| && Absent(h[i]) }

  /** A liveness probe failed. */
  predicate ProbeFailed(h: seq<Event>) { exists i :: 0 <= i < |h| && h[i] == Probed(ProbeError) }

  predicate NoGraceful(h: seq<Event>) { forall i :: 0 <= i < |h| && h[i].Signalled? ==> h[i].signal.Force? }

  lemma AppendWitness(h: seq<Event>, e: Event)
    ensures Denied(h) ==> Denied(h + [e])
    ensures Mismatched(h) || e == Checked(false) ==> Mismatched(h + [e])
    ensures e.Signalled? && e.answer.AccessDenied? ==> Denied(h + [e])
    ensures Absence(h) || Absent(e) ==> Absence(h + [e])
    ensures ProbeFailed(h) || e == Probed(ProbeError) ==> ProbeFailed(h + [e])
  {
    var g := h + [e];
    assert g[|h|] == e;
    if i :| 0 <= i < |h| && Absent(h[i]) { assert g[i] == h[i]; }
    if i :| 0 <= i < |h| && h[i] == Probed(ProbeError) { assert g[i] == h[i]; }
    if i :| 0 <= i < |h| && h[i].Signalled? && h[i].answer.AccessDenied? { assert g[i] == h[i]; }
    if i :| 0 <= i < |h| && h[i] == Checked(false) { assert g[i] == h[i]; }
  }

  lemma AppendQuiet(h: seq<Event>, e: Event)
    requires Disciplined(h) && !e.Signalled?
    ensures Disciplined(h + [e]) && Signals(h + [e]) == Signals(h)
    ensures Armed(h) ==> Armed(h + [e])
    ensures e == Checked(true) ==> Armed(h + [e])
    ensures forall s :: AcceptedSignal(h, s) ==> AcceptedSignal(h + [e], s)
    ensures forall s :: ConfirmedKill(h, s) ==> ConfirmedKill(h + [e], s)
    ensures forall s :: AcceptedSignal(h, s) && Absent(e) ==> ConfirmedKill(h + [e], s)
    ensures NoGraceful(h) ==> NoGraceful(h + [e])
    ensures NoneAccepted(h) ==> NoneAccepted(h + [e])
    ensures Denied(h) ==> Denied(h + [e])
    ensures Mismatched(h) || e == Checked(false) ==> Mismatched(h + [e])
    ensures Absence(h) || Absent(e) ==> Absence(h + [e])
    ensures ProbeFailed(h) || e == Probed(ProbeError) ==> ProbeFailed(h + [e])
  {
    hide Absence, ProbeFailed;
    var g := h + [e];
    assert g[..|h|] == h;
    AppendWitness(h, e);
    forall i | 0 <= i < |g| && g[i].Signalled? ensures Armed(g[..i]) { assert g[..i] == h[..i]; }
    if j :| 0 <= j < |h| && h[j] == Checked(true) && forall k :: j < k < |h| ==> !h[k].Signalled? {
      assert g[j] == Checked(true);
    }
    if e == Checked(true) { assert g[|h|] == Checked(true); }
    forall s | AcceptedSignal(h, s) ensures AcceptedSignal(g, s) && (Absent(e) ==> ConfirmedKill(g, s)) {
      var i :| 0 <= i < |h| && h[i] == Signalled(s, Accepted);
      assert g[i] == Signalled(s, Accepted) && g[|h|] == e;
    }
    forall s | ConfirmedKill(h, s) ensures ConfirmedKill(g, s) {
      var i, j :| 0 <= i < j < |h| && h[i] == Signalled(s, Accepted) && Absent(h[j]);
      assert g[i] == h[i] && g[j] == h[j];
    }
  }

  lemma AppendSignal(h: seq<Event>, s: Signal, a: SignalAnswer)
    requires Disciplined(h) && Armed(h)
    ensures Disciplined(h + [Signalled(s, a)]) && Signals(h + [Signalled(s, a)]) == Signals(h) + 1
    ensures a.Accepted? ==> AcceptedSignal(h + [Signalled(s, a)], s)
    ensures forall t :: AcceptedSignal(h, t) ==> AcceptedSignal(h + [Signalled(s, a)], t)
    ensures forall t :: AcceptedSignal(h, t) && a.AlreadyGone? ==> ConfirmedKill(h + [Signalled(s, a)], t)
    ensures NoGraceful(h) && s.Force? ==> NoGraceful(h + [Signalled(s, a)])
    ensures NoneAccepted(h) && !a.Accepted? ==> NoneAccepted(h + [Signalled(s, a)])
    ensures a.AccessDenied? ==> Denied(h + [Signalled(s, a)])
    ensures a.AlreadyGone? ==> Absence(h + [Signalled(s, a)])
  {
    hide Absence, ProbeFailed;
    AppendWitness(h, Signalled(s, a));
    var e := Signalled(s, a);
    var g := h + [e];
    assert g[..|h|] == h && g[|h|] == e;
    forall i | 0 <= i < |g| && g[i].Signalled? ensures Armed(g[..i]) { assert g[..i] == h[..i]; if i == |h| { assert h[..i] == h; } }
    forall t | AcceptedSignal(h, t) ensures AcceptedSignal(g, t) && (a.AlreadyGone? ==> ConfirmedKill(g, t)) {
      var i :| 0 <= i < |h| && h[i] == Signalled(t, Accepted);
      assert g[i] == Signalled(t, Accepted);
    }
  }

  /** The polls found the process alive up to the last one. A gone process ends them; a failed probe is an error, and so is a cancellation that
  is seen while the window is open. */
  predicate Polled(world: World, h: seq<Event>, g: seq<Event>, polls: nat, gone: bool, err: bool) {
    && |h| < |g| <= |h| + polls + 1 && g[..|h|] == h && (forall k :: |h| <= k < |g| - 1 ==> g[k] == Probed(Alive))
    && var last := g[|g| - 1];
    && (gone <==> last == Probed(Gone))
    && (err <==> last == Probed(ProbeError) || (last == Probed(Alive) && |g| <= |h| + polls && !world.deadline(g) && world.cancelled(g)))
  }

  /** g continues h without a signal. */
  predicate Quietly(h: seq<Event>, g: seq<Event>) {
    && Disciplined(g) && Signals(g) == Signals(h)
    && (Armed(h) ==> Armed(g))
    && (forall s :: AcceptedSignal(h, s) ==> AcceptedSignal(g, s))
    && (forall s :: ConfirmedKill(h, s) ==> ConfirmedKill(g, s))
    && (NoGraceful(h) ==> NoGraceful(g))
    && (NoneAccepted(h) ==> NoneAccepted(g))
    && (Denied(h) ==> Denied(g))
    && (Mismatched(h) ==> Mismatched(g))
    && (Absence(h) ==> Absence(g))
    && (ProbeFailed(h) ==> ProbeFailed(g))
  }

  /** What the result of a kill says about its history. */
  predicate Justified(r: KillResult, h: seq<Event>) {
    && (r == Done(Terminated, Sigterm) ==> ConfirmedKill(h, Graceful))
    && (r == Done(Terminated, Sigkill) || r == Done(Terminated, TerminateProcess) ==> ConfirmedKill(h, Force))
    && (r.Done? && r.outcome.Terminated? ==> r.reason.Sigterm? || r.reason.Sigkill? || r.reason.TerminateProcess?)
    && (r.Done? && r.outcome.Reconciled? ==> r.reason.PidGone? && NoneAccepted(h))
    && (r.Refused? ==> r.reason.IdentityUnconfirmed? || r.reason.InsufficientPrivilege? || r.reason.Unconfirmed?)
    && (r == Refused(IdentityUnconfirmed) ==> Mismatched(h))
    && (r == Refused(InsufficientPrivilege) ==> Denied(h))
    && (r == Refused(Unconfirmed) ==> Signals(h) > 0)
  }

  function ReasonCode(reason: Reason): string {
    match reason
    case Sigterm => "sigterm"
    case Sigkill => "sigkill"
    case TerminateProcess => "terminateprocess"
    case PidGone => "pid-gone"
    case IdentityUnconfirmed => "identity-unconfirmed"
    case InsufficientPrivilege => "insufficient-privilege"
    case Unconfirmed => "unconfirmed"
  }

  function Staled(inst: Instance, recoveryReason: string, exitClass: string): (to: Instance)
    ensures to.phase.Stale? && to.recoveryReason == recoveryReason && (exitClass != "" ==> to.exitClass == exitClass)
  {
    inst.(phase := LaunchState.Stale, recoveryReason := recoveryReason, exitClass := if exitClass != "" then exitClass else inst.exitClass)
  }

  /** The record a persisted success leaves: stale, and marked killed only when something was killed. */
  function Reconciliation(inst: Instance, outcome: Outcome): (to: Instance)
    ensures to.phase.Stale? && to.pid == inst.pid && to.executable == inst.executable && to.startedAt == inst.startedAt
  {
    match outcome
    case Terminated => Staled(inst, "killed-by-user", "killed")
    case Reconciled => Staled(inst, "pid-gone", "")
  }

  /** The record a persisted refusal leaves: still an orphan, with the reason. */
  function Refusal(inst: Instance, reason: Reason): (to: Instance)
    ensures to.phase == inst.phase && to.pid == inst.pid && to.executable == inst.executable && to.startedAt == inst.startedAt
  {
    inst.(lastError := ReasonCode(reason), exitClass := "")
  }

  class Supervisor {
    var store: map<string, Instance>
    var history: seq<Event>
    const world: World

    constructor (world: World, store: map<string, Instance>)
      ensures this.world == world && this.store == store && history == []
    {
      this.world := world;
      this.store := store;
      history := [];
    }

    /* ---- foreign calls ---- */

    method IsProcessAlive() returns (p: Probe)
      requires Disciplined(history)
      modifies this`history
      ensures Quietly(old(history), history)
      ensures p.Gone? ==> forall s :: AcceptedSignal(old(history), s) ==> ConfirmedKill(history, s)
      ensures Continues(old(history), Probed(world.alive(old(history))), history) && p == world.alive(old(history))
      ensures (p.Gone? ==> Absence(history)) && (p.ProbeError? ==> ProbeFailed(history))
    {
      p := world.alive(history);
      AppendQuiet(history, Probed(p));
      history := history + [Probed(p)];
    }

    /** GetProcessIdentity followed by the strict comparison. */
    method CheckIdentity(inst: Instance) returns (confirmed: bool)
      requires Disciplined(history)
      modifies this`history
      ensures Quietly(old(history), history)
      ensures if confirmed then Armed(history) else Mismatched(history)
      ensures confirmed <==> IsConfirmed(world, old(history), inst)
      ensures Continues(old(history), Checked(confirmed), history)
    {
      var id := world.identity(history);
      confirmed := id.Some? && VerifyIdentityForKill(inst, id.value, world.samePath);
      AppendQuiet(history, Checked(confirmed));
      history := history + [Checked(confirmed)];
    }

    method Send(s: Signal) returns (a: SignalAnswer)
      requires Disciplined(history) && Armed(history)
      modifies this`history
      ensures Disciplined(history) && Signals(history) == old(Signals(history)) + 1
      ensures a.Accepted? ==> AcceptedSignal(history, s)
      ensures forall t :: AcceptedSignal(old(history), t) ==> AcceptedSignal(history, t) && (a.AlreadyGone? ==> ConfirmedKill(history, t))
      ensures NoGraceful(old(history)) && s.Force? ==> NoGraceful(history)
      ensures NoneAccepted(old(history)) && !a.Accepted? ==> NoneAccepted(history)
      ensures a.AccessDenied? ==> Denied(history)
      ensures a.AlreadyGone? ==> Absence(history)
      ensures Continues(old(history), Signalled(s, world.signal(old(history), s)), history) && a == world.signal(old(history), s)
    {
      a := world.signal(history, s);
      AppendSignal(history, s, a);
      history := history + [Signalled(s, a)];
    }

    /** Polls until the process is gone, the window elapses, or the call is cancelled; at most `polls` more polls fit the window. */
    method PollGone(polls: nat) returns (gone: bool, err: bool)
      requires Disciplined(history)
      modifies this`history
      ensures Quietly(old(history), history)
      ensures gone ==> !err && forall s :: AcceptedSignal(old(history), s) ==> ConfirmedKill(history, s)
      ensures Polled(world, old(history), history, polls, gone, err)
    {
      hide Quietly, Disciplined, AcceptedSignal, ConfirmedKill, Absence, ProbeFailed;
      QuietlyStays(history);
      var left := polls;
      while true
        invariant Disciplined(history) && Quietly(old(history), history)
        invariant 0 <= left <= polls && |history| == |old(history)| + polls - left && history[..|old(history)|] == old(history)
        invariant forall k :: |old(history)| <= k < |history| ==> history[k] == Probed(Alive)
        decreases left
      {
        ghost var before := history;
        var p := IsProcessAlive();
        QuietlyOn(old(history), before, history);
        match p {
          case ProbeError => return false, true;
          case Gone => return true, false;
          case Alive =>
        }
        if left == 0 || world.deadline(history) { return false, false; }
        if world.cancelled(history) { return false, true; }
        left := left - 1;
      }
    }

    /* ---- durable outcomes ---- */

    method FinishKill(id: string, inst: Instance, recoveryReason: string, exitClass: string, result: KillResult) returns (r: KillResult)
      requires Disciplined(history) && result.Done?
      modifies this`history, this`store
      ensures Quietly(old(history), history)
      ensures r == result || r == Failed(PersistFailed)
      ensures store == if r == result then old(store)[id := Staled(inst, recoveryReason, exitClass)] else old(store)
    {
      var stale := inst.(phase := LaunchState.Stale, recoveryReason := recoveryReason);
      if exitClass != "" { stale := stale.(exitClass := exitClass); }
      var ok := world.update(history);
      AppendQuiet(history, Stored(LaunchState.Stale, ok));
      history := history + [Stored(LaunchState.Stale, ok)];
      if !ok { return Failed(PersistFailed); }
      store := store[id := stale];
      return result;
    }

    method RefuseKill(id: string, inst: Instance, reason: Reason) returns (r: KillResult)
      requires Disciplined(history)
      modifies this`history, this`store
      ensures Quietly(old(history), history)
      ensures r == Refused(reason) || r == Failed(PersistFailed)
      ensures store == if r.Refused? then old(store)[id := Refusal(inst, reason)] else old(store)
    {
      var ok := world.update(history);
      AppendQuiet(history, Stored(inst.phase, ok));
      history := history + [Stored(inst.phase, ok)];
      if !ok { return Failed(PersistFailed); }
      store := store[id := inst.(lastError := ReasonCode(reason), exitClass := "")];
      return Refused(reason);
    }

    /** The durable record of a kill: stale exactly on a persisted success, otherwise still an orphan. */
    twostate predicate Persisted(id: string, inst: Instance, r: KillResult)
      reads this
    {
      && (r.Done? ==> store == old(store)[id := Reconciliation(inst, r.outcome)])
      && (r.Refused? ==> store == old(store)[id := Refusal(inst, r.reason)])
      && (r.Failed? ==> r.error.PersistFailed? && store == old(store))
    }

    /* ---- the kill sequences ---- */

    method ForceAndConfirm(id: string, inst: Instance, polls: nat) returns (r: KillResult)
      requires Disciplined(history) && Armed(history) && AcceptedSignal(history, Graceful)
      modifies this`history, this`store
      ensures Disciplined(history) && Justified(r, history) && Persisted(id, inst, r)
      ensures Signals(history) == old(Signals(history)) + 1 && (r.Done? ==> r.outcome.Terminated?)
    {
      hide Polled, Disciplined, Armed, AcceptedSignal, ConfirmedKill, NoGraceful, Signals, NoneAccepted, Denied, Mismatched, Absence,
           ProbeFailed, Staled, Refusal, Continues, IsConfirmed;
      var a := Send(Force);
      match a {
        case Accepted =>
          var gone, err := PollGone(polls);
          if !err && gone { r := FinishKill(id, inst, "killed-by-user", "killed", Done(Terminated, Sigkill)); return; }
          r := RefuseKill(id, inst, Unconfirmed);
        case AlreadyGone => r := FinishKill(id, inst, "killed-by-user", "killed", Done(Terminated, Sigterm));
        case AccessDenied => r := RefuseKill(id, inst, InsufficientPrivilege);
        case SignalError =>
          var p := IsProcessAlive();
          if p.Gone? { r := FinishKill(id, inst, "killed-by-user", "killed", Done(Terminated, Sigterm)); } else { r := RefuseKill(id, inst, Unconfirmed); }
      }
    }

    /** After an accepted graceful signal: the process is seen to go, or a fresh check and a forced kill follow. */
    method ConfirmOrForce(id: string, inst: Instance, polls: nat) returns (r: KillResult)
      requires Disciplined(history) && AcceptedSignal(history, Graceful) && Signals(history) > 0
      modifies this`history, this`store
      ensures Disciplined(history) && Justified(r, history) && Persisted(id, inst, r)
      ensures Signals(history) <= old(Signals(history)) + 1 && (r.Done? ==> r.outcome.Terminated?)
    {
      hide Polled, Disciplined, Armed, AcceptedSignal, ConfirmedKill, NoGraceful, Signals, NoneAccepted, Denied, Mismatched, Absence,
           ProbeFailed, Staled, Refusal, Continues, IsConfirmed;
      var gone, err := PollGone(polls);
      if err { r := RefuseKill(id, inst, Unconfirmed); return; }
      if gone { r := FinishKill(id, inst, "killed-by-user", "killed", Done(Terminated, Sigterm)); return; }
      var p := IsProcessAlive();
      if p.ProbeError? { r := RefuseKill(id, inst, Unconfirmed); return; }
      if p.Gone? { r := FinishKill(id, inst, "killed-by-user", "killed", Done(Terminated, Sigterm)); return; }
      var confirmed := CheckIdentity(inst);
      if !confirmed { r := RefuseKill(id, inst, IdentityUnconfirmed); return; }
      r := ForceAndConfirm(id, inst, polls);
    }

    method KillOrphanUnix(id: string, inst: Instance, polls: nat) returns (r: KillResult)
      requires Disciplined(history) && Armed(history) && NoneAccepted(history)
      modifies this`history, this`store
      ensures Disciplined(history) && Justified(r, history) && Persisted(id, inst, r)
      ensures Signals(history) <= old(Signals(history)) + 2
      ensures r.Done? && r.outcome.Reconciled? ==> Absence(history)
    {
      hide Polled, Disciplined, Armed, AcceptedSignal, ConfirmedKill, NoGraceful, Signals, NoneAccepted, Denied, Mismatched, Absence,
           ProbeFailed, Staled, Refusal, Continues, IsConfirmed;
      var a := Send(Graceful);
      match a {
        case Accepted =>
          r := ConfirmOrForce(id, inst, polls);
        case AlreadyGone => r := FinishKill(id, inst, "pid-gone", "", Done(Reconciled, PidGone));
        case AccessDenied => r := RefuseKill(id, inst, InsufficientPrivilege);
        case SignalError =>
          var p := IsProcessAlive();
          if p.Gone? { r := FinishKill(id, inst, "pid-gone", "", Done(Reconciled, PidGone)); } else { r := RefuseKill(id, inst, Unconfirmed); }
      }
    }

    method KillOrphanWindows(id: string, inst: Instance, polls: nat) returns (r: KillResult)
      requires Disciplined(history) && Armed(history) && NoGraceful(history) && NoneAccepted(history)
      modifies this`history, this`store
      ensures Disciplined(history) && Justified(r, history) && Persisted(id, inst, r)
      ensures Signals(history) == old(Signals(history)) + 1 && NoGraceful(history)
      ensures r.Done? && r.outcome.Reconciled? ==> Absence(history)
    {
      hide Polled, Disciplined, Armed, AcceptedSignal, ConfirmedKill, NoGraceful, Signals, NoneAccepted, Denied, Mismatched, Absence,
           ProbeFailed, Staled, Refusal, Continues, IsConfirmed;
      var a := Send(Force);
      match a {
        case Accepted =>
          var gone, err := PollGone(polls);
          if !err && gone { r := FinishKill(id, inst, "killed-by-user", "killed", Done(Terminated, TerminateProcess)); return; }
          r := RefuseKill(id, inst, Unconfirmed);
        case AlreadyGone => r := FinishKill(id, inst, "pid-gone", "", Done(Reconciled, PidGone));
        case AccessDenied => r := RefuseKill(id, inst, InsufficientPrivilege);
        case SignalError =>
          var p := IsProcessAlive();
          if p.Gone? { r := FinishKill(id, inst, "pid-gone", "", Done(Reconciled, PidGone)); } else { r := RefuseKill(id, inst, Unconfirmed); }
      }
    }

    /** The strict check before the first signal, then the sequence of the platform. */
    method VerifyAndKill(id: string, inst: Instance, windows: bool, polls: nat) returns (r: KillResult)
      requires history == []
      modifies this`history, this`store
      ensures Disciplined(history) && Justified(r, history) && Persisted(id, inst, r)
      ensures Signals(history) <= (if windows then 1 else 2) && (windows ==> NoGraceful(history))
      ensures Signals(history) > 0 ==> inst.pid > 0
      ensures r.Done? && r.outcome.Reconciled? ==>
                Absence(history) || (Signals(history) == 0 && (inst.pid <= 0 || ProbeFailed(history)))
    {
      hide Polled, Disciplined, Armed, AcceptedSignal, ConfirmedKill, Signals, NoGraceful, NoneAccepted, Denied, Mismatched, Absence,
           ProbeFailed, Staled, Refusal, Continues, IsConfirmed;
      Nothing();
      if inst.pid <= 0 {
        r := FinishKill(id, inst, "pid-gone", "", Done(Reconciled, PidGone));
        return;
      }
      var p := IsProcessAlive();
      if !p.Alive? {
        r := FinishKill(id, inst, "pid-gone", "", Done(Reconciled, PidGone));
        return;
      }
      var confirmed := CheckIdentity(inst);
      if !confirmed {
        r := RefuseKill(id, inst, IdentityUnconfirmed);
        return;
      }
      if windows { r := KillOrphanWindows(id, inst, polls); } else { r := KillOrphanUnix(id, inst, polls); }
    }

    /** The whole user action. `history` records the call, whatever the world answers. */
    method KillOrphan(id: string, windows: bool, polls: nat) returns (r: KillResult)
      modifies this`history, this`store
      ensures Disciplined(history)
      ensures Justified(r, history)
      ensures r == Failed(NotFound) <==> id !in old(store)
      ensures r == Failed(NotOrphan) <==> id in old(store) && !old(store)[id].phase.Orphan?
      ensures store.Keys == old(store).Keys && forall k :: k in store && k != id ==> store[k] == old(store)[k]
      ensures id in store ==>
                store[id] == if r.Done? then Reconciliation(old(store)[id], r.outcome)
                             else if r.Refused? then Refusal(old(store)[id], r.reason) else old(store)[id]
      ensures Signals(history) <= if windows then 1 else 2
      ensures windows ==> NoGraceful(history)
      ensures Signals(history) > 0 ==> id in old(store) && old(store)[id].phase.Orphan? && old(store)[id].pid > 0
      ensures r.Done? && r.outcome.Reconciled? ==>
                Absence(history) || (Signals(history) == 0 && (old(store)[id].pid <= 0 || ProbeFailed(history)))
    {
      history := [];
      if id !in store { return Failed(NotFound); }
      var inst := store[id];
      if !inst.phase.Orphan? { return Failed(NotOrphan); }
      hide Disciplined, Justified, Signals, NoGraceful, Absence, ProbeFailed, Reconciliation, Refusal;
      r := VerifyAndKill(id, inst, windows, polls);
    }
  }

  /** Before a signal, and between any two, the identity was confirmed afresh. */
  lemma SignalsAreSeparatedByChecks(h: seq<Event>, k: nat)
    requires Disciplined(h) && k < |h| && h[k].Signalled?
    ensures exists j :: 0 <= j < k && h[j] == Checked(true)
    ensures forall i :: 0 <= i < k && h[i].Signalled? ==> exists j :: i < j < k && h[j] == Checked(true)
  {
    var j :| 0 <= j < k && h[..k][j] == Checked(true) && forall n :: j < n < k ==> !h[..k][n].Signalled?;
    assert h[j] == Checked(true);
    forall i | 0 <= i < k && h[i].Signalled? ensures i < j { assert h[..k][i] == h[i]; }
  }

  lemma Nothing()
    ensures Disciplined([]) && Signals([]) == 0 && NoGraceful([]) && NoneAccepted([])
  {
  }

  lemma QuietlyStays(h: seq<Event>)
    requires Disciplined(h)
    ensures Quietly(h, h)
  {
  }

  lemma QuietlyOn(h: seq<Event>, g: seq<Event>, f: seq<Event>)
    requires Quietly(h, g) && Quietly(g, f)
    ensures Quietly(h, f) && Disciplined(f)
    ensures (forall s :: AcceptedSignal(g, s) ==> ConfirmedKill(f, s)) ==> forall s :: AcceptedSignal(h, s) ==> ConfirmedKill(f, s)
  {
    hide Polled, Disciplined, Armed, AcceptedSignal, ConfirmedKill, NoGraceful, Signals, NoneAccepted, Denied, Mismatched, Absence,
         ProbeFailed, Staled, Refusal, Continues, IsConfirmed;
  }
}
