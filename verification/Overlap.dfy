/** The two ways in which a phase that has completed is executed again. Rerun.dfy says that there are no others. */
module Overlap {
  import opened Store
  import opened Protocol
  import opened HistorySafety
  import opened Recovery
  import opened OnePhaseRuns

  /** A slow run: it has read that the phase has no event. */
  function Early(): Process {
    NewProcess(OnePhase(), true).(pc := ReadLock)
  }

  function Waiting(): State {
    Put(Init(0), 1, Early())
  }

  lemma EarlyOccurs()
    ensures Occurs(Waiting())
  {
    var p := NewProcess(OnePhase(), true);
    InitOccurs();
    StepOccurs(Init(0), Start(1, true));
    OneStep(OnePhase(), Init(0), 1, p, Early());
    LeadsOccurs(Put(Init(0), 1, p), 1, Waiting());
  }

  /** The slow run goes on from what it read: the phase looks pending and the lock is free. */
  lemma SlowGoesOn(s: State)
    requires 1 in s.procs && s.procs[1] == Early() && s.db.lock.None? && HistoryOk(OnePhase(), s.db.history)
    ensures Leads(OnePhase(), s, 1, Begun(OnePhase(), s, 1, Early().(pc := ReadClock)))
  {
    var c := OnePhase();
    var p1 := Early().(pc := Decide);
    var p2 := Early().(pc := ReadClock);
    assert Put(s, 1, Early()) == s;
    OneStep(c, s, 1, Early(), p1);
    OneStep(c, s, 1, p1, p2);
    Then(c, s, 1, Put(s, 1, p1), Put(s, 1, p2));
    AcquireAndBegin(c, s, 1, p2);
    Then(c, s, 1, Put(s, 1, p2), Begun(c, s, 1, p2));
  }

  /** The state check comes before the lock: another run completes the phase in between. */
  lemma CompletedCanBeRerun() returns (ls: seq<Label>)
    ensures var s := Exec(OnePhase(), Init(0), ls);
            1 in s.procs && s.procs[1].pc == Executing && s.procs[1].idx == 0 && CompletedNow(s.db.history, "expand")
  {
    EarlyOccurs();
    CompletesAlone(Waiting(), 0);
    var done := AfterCompletion(Waiting(), 0);
    OccursIsSafe(done);
    SlowGoesOn(done);
    var t := Begun(OnePhase(), done, 1, Early().(pc := ReadClock));
    LeadsOccurs(done, 1, t);
    ls :| RunTo(ls, t);
    assert t.db.history[1].kind == Completed;
  }

  /** The first holder is still running when its lock expires. */
  function Expiring(): State {
    var s := AfterStart(Init(0), 0);
    s.(now := s.now + LOCK_TTL + 1)
  }

  lemma ExpiringOccurs()
    ensures Occurs(Expiring())
  {
    InitOccurs();
    StartsAlone(Init(0), 0);
    StepOccurs(AfterStart(Init(0), 0), Tick(LOCK_TTL + 1));
  }

  /** A thief completes the phase; then the first holder fails, and its FAILED comes after the thief's COMPLETED. */
  function Hidden(): State {
    AfterEnd(AfterCompletion(Expiring(), 1), 0, ExecError)
  }

  lemma HiddenOccurs()
    ensures Occurs(Hidden())
  {
    ExpiringOccurs();
    CompletesAlone(Expiring(), 1);
    EndsAlone(AfterCompletion(Expiring(), 1), 0, ExecError);
  }

  lemma HiddenFacts()
    ensures var s := Hidden();
            && 2 !in s.procs && (forall q :: q in s.procs ==> !Live(s.procs[q]))
            && s.db.lock.None? && CompletedNow(s.db.history, "expand") && NotCompleted(s)
  {
    assert Hidden().db.history[2].kind == Completed;
  }

  /** Nobody is alive, the lock is free and the phase has completed, but a later row hides it: a resume that overlaps
      with nobody, alone from its start, executes the phase again. */
  lemma HiddenCompletedIsRerun() returns (ls: seq<Label>, n: nat)
    ensures var s := Exec(OnePhase(), Init(0), ls);
            && 2 !in s.procs && (forall q :: q in s.procs ==> !Live(s.procs[q]))
            && s.db.lock.None? && CompletedNow(s.db.history, "expand")
    ensures var t := Exec(OnePhase(), Init(0), ls + [Start(2, true)] + Repeat(2, n));
            2 in t.procs && t.procs[2].pc == Executing && t.procs[2].idx == 0
  {
    HiddenOccurs();
    HiddenFacts();
    ls :| RunTo(ls, Hidden());
    n := StartsFrom(ls, Hidden(), 2);
  }
}
