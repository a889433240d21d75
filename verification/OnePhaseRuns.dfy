/** Tools for exhibiting runs of a migration with one phase: states that some run reaches, and a process that starts,
    runs the phase and returns while nobody else moves. */
module OnePhaseRuns {
  import opened Store
  import opened Protocol
  import opened HistorySafety
  import opened Recovery

  ghost predicate RunTo(ls: seq<Label>, s: State) {
    Exec(OnePhase(), Init(0), ls) == s
  }

  ghost predicate Occurs(s: State) {
    exists ls :: RunTo(ls, s)
  }

  lemma InitOccurs()
    ensures Occurs(Init(0))
  {
    assert RunTo([], Init(0));
  }

  lemma StepOccurs(s: State, l: Label)
    requires Occurs(s)
    ensures Occurs(Apply(OnePhase(), s, l))
  {
    var ls :| RunTo(ls, s);
    assert (ls + [l])[..|ls|] == ls;
    assert RunTo(ls + [l], Apply(OnePhase(), s, l));
  }

  lemma LeadsOccurs(s: State, pid: ProcessId, t: State)
    requires Occurs(s) && Leads(OnePhase(), s, pid, t)
    ensures Occurs(t)
  {
    var ls :| RunTo(ls, s);
    var n: nat :| Solo(OnePhase(), s, pid, n) == t;
    SoloIsRun(OnePhase(), s, pid, n);
    ExecConcat(OnePhase(), Init(0), ls, Repeat(pid, n));
    assert RunTo(ls + Repeat(pid, n), t);
  }

  lemma OccursIsSafe(s: State)
    requires Occurs(s)
    ensures Safe(OnePhase(), s)
  {
    var ls :| RunTo(ls, s);
    SafeInEveryRun(OnePhase(), 0, ls);
  }

  // ----- One process alone

  /** A resuming process that has read the latest event and the lock of s. */
  function Reader(s: State): Process {
    Informed(s, "expand", NewProcess(OnePhase(), true))
  }

  /** It has started its attempt. */
  function AfterStart(s: State, pid: ProcessId): State {
    Begun(OnePhase(), s, pid, Reader(s))
  }

  ghost predicate NotCompleted(s: State) {
    var latest := LatestEvent(s.db.history, "expand");
    latest.Some? ==> latest.value.kind != Completed
  }

  lemma StartsAlone(s: State, pid: ProcessId)
    requires Occurs(s) && pid !in s.procs && LockFree(s) && NotCompleted(s)
    ensures Occurs(AfterStart(s, pid))
  {
    OccursIsSafe(s);
    StepOccurs(s, Start(pid, true));
    BeginPhase(OnePhase(), s, pid, NewProcess(OnePhase(), true));
    LeadsOccurs(Put(s, pid, NewProcess(OnePhase(), true)), pid, AfterStart(s, pid));
  }

  /** The same, with the labels: s is the end of `ls`. */
  lemma StartsFrom(ls: seq<Label>, s: State, pid: ProcessId) returns (n: nat)
    requires RunTo(ls, s) && pid !in s.procs && LockFree(s) && NotCompleted(s)
    ensures RunTo(ls + [Start(pid, true)] + Repeat(pid, n), AfterStart(s, pid))
  {
    var c, p := OnePhase(), NewProcess(OnePhase(), true);
    OccursIsSafe(s);
    BeginPhase(c, s, pid, p);
    n :| Solo(c, Put(s, pid, p), pid, n) == AfterStart(s, pid);
    ExecConcat(c, Init(0), ls, [Start(pid, true)]);
    ExecOne(c, s, Start(pid, true));
    ExecConcat(c, Init(0), ls + [Start(pid, true)], Repeat(pid, n));
    SoloIsRun(c, Put(s, pid, p), pid, n);
  }

  function Moved(s: State, pid: ProcessId, pc: Counter, r: ExecResult): State
    requires pid in s.procs
  {
    Put(s, pid, s.procs[pid].(pc := pc, result := r))
  }

  /** Execute has returned r, and the guard has let the process through. */
  lemma ReachesTerminal(s: State, pid: ProcessId, r: ExecResult)
    requires Occurs(s) && pid in s.procs && s.procs[pid].pc == Executing && s.procs[pid].idx == 0
    ensures Occurs(Moved(s, pid, InsertTerminal, r))
  {
    StepOccurs(s, Act(pid, Finish(r)));
    var t := Moved(s, pid, Guard, r);
    assert Apply(OnePhase(), s, Act(pid, Finish(r))) == t;
    OccursIsSafe(t);
    GuardSeesStarted(OnePhase(), t.db.history, pid, t.procs[pid]);
    StepOccurs(t, Next(pid));
    assert Apply(OnePhase(), t, Next(pid)) == Moved(s, pid, InsertTerminal, r);
  }

  /** The terminal event is in. */
  function AfterEnd(s: State, pid: ProcessId, r: ExecResult): State
    requires pid in s.procs
  {
    var p := s.procs[pid].(pc := InsertTerminal, result := r);
    Put(s.(db := s.db.(history := s.db.history + [PhaseEvent("expand", p.attempt, TerminalKind(r), pid)])), pid,
        if r == ExecOk then p.(pc := Releasing) else p.Fail(PhaseError(r)))
  }

  lemma EndsAlone(s: State, pid: ProcessId, r: ExecResult)
    requires Occurs(s) && pid in s.procs && s.procs[pid].pc == Executing && s.procs[pid].idx == 0
    ensures Occurs(AfterEnd(s, pid, r))
  {
    ReachesTerminal(s, pid, r);
    var t := Moved(s, pid, InsertTerminal, r);
    OccursIsSafe(t);
    InsertIsNextRow(OnePhase(), t.db.history, pid, t.procs[pid]);
    StepOccurs(t, Next(pid));
    assert Apply(OnePhase(), t, Next(pid)) == AfterEnd(s, pid, r);
  }

  /** A process has started, completed the phase, released the lock and returned. */
  function AfterCompletion(s: State, pid: ProcessId): State {
    var t := AfterEnd(AfterStart(s, pid), pid, ExecOk);
    Put(t.(db := t.db.(lock := None)), pid, t.procs[pid].NextPhase(OnePhase()))
  }

  lemma CompletesAlone(s: State, pid: ProcessId)
    requires Occurs(s) && pid !in s.procs && LockFree(s) && NotCompleted(s)
    ensures Occurs(AfterCompletion(s, pid))
  {
    StartsAlone(s, pid);
    EndsAlone(AfterStart(s, pid), pid, ExecOk);
    var t := AfterEnd(AfterStart(s, pid), pid, ExecOk);
    StepOccurs(t, Next(pid));
    assert Apply(OnePhase(), t, Next(pid)) == AfterCompletion(s, pid);
  }
}
