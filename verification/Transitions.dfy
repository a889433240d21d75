/** internal/runner/transitions.go: the state derived from the latest event and the lock, and who may proceed. */
module Transitions {
  import opened Store

  datatype PhaseState = Pending | Running | StateCompleted | StateFailed | StateTimedOut | StateRolledBack | Orphaned

  datatype GateError = AlreadyRunning(holder: ProcessId) | RequiresResume

  function DetermineState(latest: Option<PhaseEvent>, lock: Option<LockRow>, now: int): PhaseState {
    match latest
    case None => Pending
    case Some(e) =>
      match e.kind
      case Completed => StateCompleted
      case Failed => StateFailed
      case TimedOut => StateTimedOut
      case RolledBack => StateRolledBack
      case Started =>
        if lock.None? then Orphaned
        else if now > lock.value.expiresAt then Orphaned
        else Running
      case Skipped => Pending
  }

  function CheckStateGate(state: PhaseState, resume: bool, lock: Option<LockRow>): Option<GateError>
    requires state == Running ==> lock.Some?
  {
    match state
    case Running => Some(AlreadyRunning(lock.value.holder))
    case Orphaned => if resume then None else Some(RequiresResume)
    case StateFailed => if resume then None else Some(RequiresResume)
    case StateTimedOut => if resume then None else Some(RequiresResume)
    case _ => None
  }

  /** AcquireLock run at one instant: INSERT, and on a duplicate key the conditional UPDATE. */
  function AcquireLockNow(t: Tables, holder: ProcessId, now: int): (Tables, Reply) {
    var (t1, r) := InsertLock(t, holder, now, NoFault);
    if r == Duplicate then StealLock(t1, holder, now, now, NoFault) else (t1, r)
  }

  /** The liveness test of DetermineState and the steal condition of AcquireLock agree at every instant. */
  lemma LivenessAgreesWithSteal(t: Tables, latest: PhaseEvent, pid: ProcessId, now: int)
    requires latest.kind == Started
    ensures DetermineState(Some(latest), t.lock, now) == Orphaned <==> AcquireLockNow(t, pid, now).1 == Accepted
    ensures DetermineState(Some(latest), t.lock, now) == Running <==> AcquireLockNow(t, pid, now) == (t, Duplicate)
    ensures AcquireLockNow(t, pid, now).1 == Accepted ==>
              AcquireLockNow(t, pid, now).0 == t.(lock := Some(LockRow(pid, now, now + LOCK_TTL)))
  {
  }

  /** Exactly who is turned away, and with which error: while the lock is live a started phase is being run by its
      holder, whatever the mode; otherwise only resume mode goes on from STARTED, FAILED or TIMED_OUT. */
  lemma GateRefuses(latest: Option<PhaseEvent>, lock: Option<LockRow>, now: int, resume: bool)
    ensures var refused := CheckStateGate(DetermineState(latest, lock, now), resume, lock);
            var started := latest.Some? && latest.value.kind == Started;
            var live := lock.Some? && now <= lock.value.expiresAt;
            && (refused.Some? && refused.value.AlreadyRunning? <==> started && live)
            && (started && live ==> refused == Some(AlreadyRunning(lock.value.holder)))
            && (refused == Some(RequiresResume) <==>
                  !resume && latest.Some? && ((started && !live) || latest.value.kind in {Failed, TimedOut}))
  {
  }

  /** The state tells terminal events apart, and from any other or none. */
  lemma StateTellsTerminal(latest: Option<PhaseEvent>, lock: Option<LockRow>, now: int)
    ensures var state := DetermineState(latest, lock, now);
            && (state == StateCompleted <==> latest.Some? && latest.value.kind == Completed)
            && (state == StateFailed <==> latest.Some? && latest.value.kind == Failed)
            && (state == StateTimedOut <==> latest.Some? && latest.value.kind == TimedOut)
            && (state == StateRolledBack <==> latest.Some? && latest.value.kind == RolledBack)
            && (state == Running || state == Orphaned <==> latest.Some? && latest.value.kind == Started)
            && (latest.Some? && latest.value.kind.IsTerminal()
                <==> state in {StateCompleted, StateFailed, StateTimedOut, StateRolledBack})
  {
  }
}
