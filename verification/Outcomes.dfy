/** What a run leaves in the history, against what its executors and `Run` itself return. */
module Outcomes {
  import opened Store
  import opened Protocol
  import opened HistorySafety
  import opened Recovery

  // ----- The terminal event tells the result

  /** COMPLETED for nil, TIMED_OUT for the gate's timeout, FAILED for any other error. */
  ghost predicate Tells(kind: EventType, r: ExecResult) {
    && (kind == Completed <==> r == ExecOk)
    && (kind == TimedOut <==> r == GateTimeout)
    && (kind == Failed <==> r == ExecError)
  }

  /** In every run: the terminal insert adds one row, of the process's own attempt, that tells the result of its
      Execute, unless the statement is lost. */
  lemma TerminalRowTells(c: Config, nulls: nat, ls: seq<Label>, pid: ProcessId, f: Fault)
    requires var s := Exec(c, Init(nulls), ls); pid in s.procs && s.procs[pid].pc == InsertTerminal
    ensures var s := Exec(c, Init(nulls), ls);
            var p, h := s.procs[pid], Apply(c, s, Act(pid, Do(f))).db.history;
            && p.idx < |c|
            && if f == Lost(false) then h == s.db.history
               else |h| == |s.db.history| + 1 && h == s.db.history + [Last(h)] && Tells(Last(h).kind, p.result)
                    && Last(h).phase == c[p.idx].name && Last(h).attempt == p.attempt && Last(h).writer == pid
  {
    SafeInEveryRun(c, nulls, ls);
    var s := Exec(c, Init(nulls), ls);
    InsertIsNextRow(c, s.db.history, pid, s.procs[pid]);
  }

  /** A run that has returned its phase's error has left FAILED or TIMED_OUT after its STARTED, whichever tells it. */
  ghost predicate ErrorTold(c: Config, h: seq<PhaseEvent>, pid: ProcessId, p: Process) {
    p.outcome.Failure? && p.outcome.error.PhaseError? ==>
      && p.pc == Returned && p.idx < |c| && p.outcome.error.result != ExecOk
      && var rows := Rows(h, c[p.idx].name, p.attempt);
         |rows| >= 2 && rows[0] == PhaseEvent(c[p.idx].name, p.attempt, Started, pid)
         && rows[1].writer == pid && Tells(rows[1].kind, p.outcome.error.result)
  }

  ghost predicate ToldAt(c: Config, s: State, pid: ProcessId) {
    pid in s.procs && ErrorTold(c, s.db.history, pid, s.procs[pid])
  }

  lemma RowsOnlyGrow(c: Config, s: State, l: Label, phase: string, attempt: nat)
    requires Safe(c, s)
    ensures Rows(s.db.history, phase, attempt) <= Rows(Apply(c, s, l).db.history, phase, attempt)
  {
    StepAddsOneRow(c, s, l);
    var h' := Apply(c, s, l).db.history;
    if h' != s.db.history {
      RowsAppend(s.db.history, Last(h'));
    }
  }

  /** The process that inserted, whether or not its row went in. */
  lemma WriterTells(c: Config, h: seq<PhaseEvent>, now: int, pid: ProcessId, p: Process, r: Reply)
    requires ProcessOk(c, h, pid, p) && Inserting(p.pc) && ErrorTold(c, h, pid, p)
    requires NextRow(h, PendingRow(c[p.idx].name, pid, p))
    ensures r != Accepted ==> ErrorTold(c, h, pid, AfterInsert(c[p.idx], now, p, r))
    ensures ErrorTold(c, h + [PendingRow(c[p.idx].name, pid, p)], pid, AfterInsert(c[p.idx], now, p, r))
  {
    var e := PendingRow(c[p.idx].name, pid, p);
    if p.pc != InsertStarted {
      RowsAppend(h, e);
      assert Rows(h + [e], e.phase, e.attempt) == Rows(h, e.phase, e.attempt) + [e];
    }
  }

  lemma DuplicateTells(c: Config, h: seq<PhaseEvent>, now: int, pid: ProcessId, p: Process, r: Reply)
    requires p.pc == InsertStarted && r != Accepted
    requires p.idx < |c|
    ensures ErrorTold(c, h, pid, AfterInsert(c[p.idx], now, p, r))
  {
  }

  lemma InsertTells(c: Config, s: State, pid: ProcessId, p: Process, f: Fault)
    requires Safe(c, s) && pid in s.procs && p == s.procs[pid] && p.idx < |c| && Inserting(p.pc)
    requires ErrorTold(c, s.db.history, pid, p)
    ensures ToldAt(c, InsertStep(c[p.idx], s, pid, p, f), pid)
  {
    var r := InsertEvent(s.db, PendingRow(c[p.idx].name, pid, p), f).1;
    InsertIsNextRow(c, s.db.history, pid, p);
    if DuplicateKey(s.db.history, PendingRow(c[p.idx].name, pid, p)) {
      DuplicateTells(c, s.db.history, s.now, pid, p, r);
    } else {
      WriterTells(c, s.db.history, s.now, pid, p, r);
    }
  }

  lemma ReaderTells(c: Config, now: int, db: Tables, pid: ProcessId, p: Process, f: Fault)
    requires ProcessOk(c, db.history, pid, p) && Reading(p.pc) && ErrorTold(c, db.history, pid, p)
    ensures ErrorTold(c, db.history, pid, ReadStep(c, now, db, p, f))
  {
    if p.pc == Guard {
      GuardSeesStarted(c, db.history, pid, p);
    }
  }

  lemma ReadTells(c: Config, s: State, pid: ProcessId, p: Process, f: Fault)
    requires Safe(c, s) && pid in s.procs && p == s.procs[pid] && p.idx < |c| && Reading(p.pc) && ToldAt(c, s, pid)
    ensures ToldAt(c, Put(s, pid, ReadStep(c, s.now, s.db, p, f)), pid)
  {
    ReaderTells(c, s.now, s.db, pid, p, f);
  }

  lemma LockTells(c: Config, s: State, pid: ProcessId, p: Process, f: Fault)
    requires pid in s.procs && p == s.procs[pid] && p.idx < |c| && Locking(p.pc) && ToldAt(c, s, pid)
    ensures ToldAt(c, LockStep(c, s, pid, p, f), pid)
  {
  }

  /** The places where runPhase returns the phase's error. */
  lemma OwnStatementKeepsErrorTold(c: Config, s: State, pid: ProcessId, p: Process, f: Fault)
    requires Safe(c, s) && pid in s.procs && p == s.procs[pid] && p.idx < |c| && ToldAt(c, s, pid)
    ensures ToldAt(c, DoStep(c, s, pid, p, f), pid)
  {
    if Reading(p.pc) {
      ReadTells(c, s, pid, p, f);
    } else if Inserting(p.pc) {
      InsertTells(c, s, pid, p, f);
    } else if Locking(p.pc) {
      LockTells(c, s, pid, p, f);
    }
  }

  lemma OwnStepKeepsErrorTold(c: Config, s: State, pid: ProcessId, a: Action)
    requires Safe(c, s) && pid in s.procs && s.procs[pid].idx < |c| && ToldAt(c, s, pid)
    ensures ToldAt(c, Apply(c, s, Act(pid, a)), pid)
  {
    if a.Do? {
      OwnStatementKeepsErrorTold(c, s, pid, s.procs[pid], a.fault);
    } else if !a.Checkpoint? {
      OtherActionMoves(c, s, pid, a);
    }
  }

  lemma StepKeepsErrorTold(c: Config, s: State, l: Label, pid: ProcessId)
    requires Safe(c, s) && (pid in s.procs ==> ToldAt(c, s, pid))
    ensures var t := Apply(c, s, l); pid in t.procs ==> ToldAt(c, t, pid)
  {
    if l.Act? && l.pid == pid && pid in s.procs && s.procs[pid].idx < |c| {
      OwnStepKeepsErrorTold(c, s, pid, l.action);
    } else {
      OthersStay(c, s, l, pid);
      if pid in s.procs && s.procs[pid].idx < |c| {
        RowsOnlyGrow(c, s, l, c[s.procs[pid].idx].name, s.procs[pid].attempt);
      }
    }
  }

  lemma {:induction false} ErrorTellsInEveryRun(c: Config, nulls: nat, ls: seq<Label>, pid: ProcessId)
    ensures var s := Exec(c, Init(nulls), ls); pid in s.procs ==> ErrorTold(c, s.db.history, pid, s.procs[pid])
  {
    if ls != [] {
      SafeInEveryRun(c, nulls, ls[..|ls| - 1]);
      ErrorTellsInEveryRun(c, nulls, ls[..|ls| - 1], pid);
      StepKeepsErrorTold(c, Exec(c, Init(nulls), ls[..|ls| - 1]), Last(ls), pid);
    }
  }

  // ----- A run that nothing disturbs

  ghost predicate Reaches(c: Config, s: State, t: State) {
    exists ls :: Exec(c, s, ls) == t
  }

  lemma ReachesOne(c: Config, r: State, s: State, l: Label)
    requires Reaches(c, r, s)
    ensures Reaches(c, r, Apply(c, s, l))
  {
    var ls :| Exec(c, r, ls) == s;
    assert (ls + [l])[..|ls|] == ls;
    assert Exec(c, r, ls + [l]) == Apply(c, s, l);
  }

  lemma ReachesAlone(c: Config, r: State, s: State, pid: ProcessId, t: State)
    requires Reaches(c, r, s) && Leads(c, s, pid, t)
    ensures Reaches(c, r, t)
  {
    var ls :| Exec(c, r, ls) == s;
    var n: nat :| Solo(c, s, pid, n) == t;
    SoloIsRun(c, s, pid, n);
    ExecConcat(c, r, ls, Repeat(pid, n));
    assert Exec(c, r, ls + Repeat(pid, n)) == t;
  }

  lemma ReachableIsSafe(c: Config, nulls: nat, s: State)
    requires Reaches(c, Init(nulls), s)
    ensures Safe(c, s)
  {
    var ls :| Exec(c, Init(nulls), ls) == s;
    SafeInEveryRun(c, nulls, ls);
  }

  /** The first attempt of each of the first n phases, all by one process, all completed. */
  function FirstAttempts(c: Config, pid: ProcessId, n: nat): seq<PhaseEvent>
    requires n <= |c|
  {
    if n == 0 then []
    else FirstAttempts(c, pid, n - 1) + [PhaseEvent(c[n - 1].name, 1, Started, pid),
                                         PhaseEvent(c[n - 1].name, 1, Completed, pid)]
  }

  /** One checkpoint of each backfill and each contract among them. */
  function FirstCheckpoints(c: Config, n: nat): seq<CheckpointRow<int>>
    requires n <= |c|
  {
    if n == 0 then []
    else FirstCheckpoints(c, n - 1)
         + if c[n - 1].name in {"backfill", "contract"} then [CheckpointRow(c[n - 1].name, 1, 0)] else []
  }

  /** Nobody but `pid` is there, and it enters phase i with the phases before it completed and the lock free. */
  ghost predicate AtPhase(c: Config, s: State, pid: ProcessId, i: nat)
    requires i <= |c|
  {
    && s.procs.Keys == {pid} && s.db.lock == None && s.db.history == FirstAttempts(c, pid, i)
    && s.db.checkpoints == FirstCheckpoints(c, i)
    && var p := s.procs[pid];
       if i < |c| then Entering(c, p, i) else p.outcome == Success && p.pc == Returned
  }

  lemma {:induction false} NoEventYet(c: Config, pid: ProcessId, n: nat, i: nat)
    requires Distinct(c) && n <= i < |c|
    ensures LatestEvent(FirstAttempts(c, pid, n), c[i].name) == None
    ensures MaxAttemptNumber(FirstAttempts(c, pid, n), c[i].name) == 0
    ensures forall k :: 0 <= k < |FirstAttempts(c, pid, n)| ==> FirstAttempts(c, pid, n)[k].phase != c[i].name
  {
    if n > 0 {
      var h := FirstAttempts(c, pid, n - 1);
      var a, b := PhaseEvent(c[n - 1].name, 1, Started, pid), PhaseEvent(c[n - 1].name, 1, Completed, pid);
      NoEventYet(c, pid, n - 1, i);
      assert h + [a, b] == (h + [a]) + [b];
      RowsAppend(h, a);
      RowsAppend(h + [a], b);
    }
  }

  /** The process and the tables once Execute has been entered. */
  function Running(c: Config, s: State, pid: ProcessId): State
    requires pid in s.procs && s.procs[pid].idx < |c|
  {
    Begun(c, s, pid, Informed(s, c[s.procs[pid].idx].name, s.procs[pid]))
  }

  lemma ReachesExecute(c: Config, nulls: nat, s: State, pid: ProcessId, i: nat)
    requires Distinct(c) && i < |c| && KnownPhase(c[i].name)
    requires Reaches(c, Init(nulls), s) && AtPhase(c, s, pid, i)
    ensures Reaches(c, Init(nulls), Running(c, s, pid))
    ensures Running(c, s, pid).db.history == s.db.history + [PhaseEvent(c[i].name, 1, Started, pid)]
  {
    ReachableIsSafe(c, nulls, s);
    NoEventYet(c, pid, i, i);
    assert Put(s, pid, s.procs[pid]) == s;
    BeginPhase(c, s, pid, s.procs[pid]);
    ReachesAlone(c, Init(nulls), s, pid, Running(c, s, pid));
  }

  /** Execute does its work and returns nil: expand and backfill leave no NULL row, gate polls, backfill and contract
      write a checkpoint. */
  function Executed(c: Config, s: State, pid: ProcessId, i: nat): State
    requires i < |c|
  {
    var worked := Apply(c, s, Act(pid, Work(0)));
    Apply(c, Apply(c, worked, Act(pid, Checkpoint(0, NoFault))), Act(pid, Finish(ExecOk)))
  }

  lemma ExecuteReturnsNil(c: Config, s: State, pid: ProcessId, i: nat)
    requires i < |c| && pid in s.procs && s.procs[pid].idx == i && s.procs[pid].pc == Executing && KnownPhase(c[i].name)
    requires s.nulls == 0 || c[i].name in {"expand", "backfill"}
    ensures var t := Executed(c, s, pid, i);
            && t.procs.Keys == s.procs.Keys && t.nulls == 0
            && t.db == s.db.(checkpoints := s.db.checkpoints
                                 + if c[i].name in {"backfill", "contract"}
                                   then [CheckpointRow(c[i].name, s.procs[pid].attempt, 0)] else [])
            && t.procs[pid] == s.procs[pid].(pc := Guard, result := ExecOk, sawZero := t.procs[pid].sawZero)
  {
  }

  lemma ReachesExecuted(c: Config, r: State, s: State, pid: ProcessId, i: nat)
    requires Reaches(c, r, s) && i < |c|
    ensures Reaches(c, r, Executed(c, s, pid, i))
  {
    ReachesOne(c, r, s, Act(pid, Work(0)));
    var worked := Apply(c, s, Act(pid, Work(0)));
    ReachesOne(c, r, worked, Act(pid, Checkpoint(0, NoFault)));
    ReachesOne(c, r, Apply(c, worked, Act(pid, Checkpoint(0, NoFault))), Act(pid, Finish(ExecOk)));
  }

  lemma PassesGuard(c: Config, nulls: nat, s: State, pid: ProcessId, i: nat)
    requires Reaches(c, Init(nulls), s) && i < |c| && pid in s.procs
    requires s.procs[pid].idx == i && s.procs[pid].pc == Guard
    ensures Apply(c, s, Next(pid)) == Put(s, pid, s.procs[pid].(pc := InsertTerminal))
    ensures Reaches(c, Init(nulls), Put(s, pid, s.procs[pid].(pc := InsertTerminal)))
  {
    ReachableIsSafe(c, nulls, s);
    GuardSeesStarted(c, s.db.history, pid, s.procs[pid]);
    ReachesOne(c, Init(nulls), s, Next(pid));
  }

  lemma RecordsCompleted(c: Config, nulls: nat, s: State, pid: ProcessId, i: nat)
    requires Reaches(c, Init(nulls), s) && i < |c| && pid in s.procs
    requires s.procs[pid].idx == i && s.procs[pid].pc == InsertTerminal && s.procs[pid].result == ExecOk
    ensures var e := PhaseEvent(c[i].name, s.procs[pid].attempt, Completed, pid);
            var t := Put(s.(db := s.db.(history := s.db.history + [e])), pid, s.procs[pid].(pc := Releasing));
            Apply(c, s, Next(pid)) == t && Reaches(c, Init(nulls), t)
  {
    ReachableIsSafe(c, nulls, s);
    InsertIsNextRow(c, s.db.history, pid, s.procs[pid]);
    ReachesOne(c, Init(nulls), s, Next(pid));
  }

  /** From the return of Execute to the next phase: guard, COMPLETED, release. */
  lemma Concludes(c: Config, nulls: nat, s: State, pid: ProcessId, i: nat) returns (t: State)
    requires Reaches(c, Init(nulls), s) && i < |c| && s.procs.Keys == {pid}
    requires s.procs[pid].idx == i && s.procs[pid].pc == Guard && s.procs[pid].result == ExecOk
    ensures Reaches(c, Init(nulls), t) && t.procs.Keys == {pid} && t.db.lock == None && t.nulls == s.nulls
    ensures t.db.checkpoints == s.db.checkpoints
    ensures t.db.history == s.db.history + [PhaseEvent(c[i].name, s.procs[pid].attempt, Completed, pid)]
    ensures t.procs[pid].idx == i + 1
    ensures t.procs[pid].pc == if i + 1 < |c| then ReadLatest else Returned
    ensures t.procs[pid].outcome == if i + 1 < |c| then Unfinished else Success
  {
    PassesGuard(c, nulls, s, pid, i);
    var s1 := Put(s, pid, s.procs[pid].(pc := InsertTerminal));
    RecordsCompleted(c, nulls, s1, pid, i);
    var s2 := Apply(c, s1, Next(pid));
    ReachesOne(c, Init(nulls), s2, Next(pid));
    t := Apply(c, s2, Next(pid));
  }

  lemma PhaseExecutes(c: Config, nulls: nat, s: State, pid: ProcessId, i: nat) returns (t: State)
    requires Distinct(c) && i < |c| && KnownPhase(c[i].name)
    requires Reaches(c, Init(nulls), s) && AtPhase(c, s, pid, i)
    requires s.nulls == 0 || c[i].name in {"expand", "backfill"}
    ensures Reaches(c, Init(nulls), t) && t.procs.Keys == {pid} && t.nulls == 0
    ensures t.procs[pid].idx == i && t.procs[pid].pc == Guard
    ensures t.procs[pid].result == ExecOk && t.procs[pid].attempt == 1
    ensures t.db.history == s.db.history + [PhaseEvent(c[i].name, 1, Started, pid)]
    ensures t.db.checkpoints == FirstCheckpoints(c, i + 1)
  {
    ReachesExecute(c, nulls, s, pid, i);
    var s1 := Running(c, s, pid);
    NoEventYet(c, pid, i, i);
    ExecuteReturnsNil(c, s1, pid, i);
    ReachesExecuted(c, Init(nulls), s1, pid, i);
    t := Executed(c, s1, pid, i);
  }

  lemma PhaseCompletes(c: Config, nulls: nat, s: State, pid: ProcessId, i: nat) returns (t: State)
    requires Distinct(c) && i < |c| && KnownPhase(c[i].name)
    requires Reaches(c, Init(nulls), s) && AtPhase(c, s, pid, i)
    requires s.nulls == 0 || c[i].name in {"expand", "backfill"}
    ensures Reaches(c, Init(nulls), t) && AtPhase(c, t, pid, i + 1) && t.nulls == 0
  {
    var s1 := PhaseExecutes(c, nulls, s, pid, i);
    t := Concludes(c, nulls, s1, pid, i);
    var a, b := PhaseEvent(c[i].name, 1, Started, pid), PhaseEvent(c[i].name, 1, Completed, pid);
    assert (s.db.history + [a]) + [b] == s.db.history + [a, b];
  }

  lemma {:induction false} PhasesComplete(c: Config, nulls: nat, pid: ProcessId, resume: bool, n: nat)
    returns (t: State)
    requires Distinct(c) && n <= |c| && c != [] && forall i :: 0 <= i < |c| ==> KnownPhase(c[i].name)
    requires nulls == 0 || c[0].name in {"expand", "backfill"}
    ensures Reaches(c, Init(nulls), t) && AtPhase(c, t, pid, n) && t.nulls == if n == 0 then nulls else 0
  {
    if n == 0 {
      assert Exec(c, Init(nulls), []) == Init(nulls);
      ReachesOne(c, Init(nulls), Init(nulls), Start(pid, resume));
      t := Apply(c, Init(nulls), Start(pid, resume));
    } else {
      var s := PhasesComplete(c, nulls, pid, resume, n - 1);
      t := PhaseCompletes(c, nulls, s, pid, n - 1);
    }
  }

  /** Every migration of known, distinct phases that begins with expand or backfill, or finds no NULL row, has a run, in
      either mode, that returns nil: it leaves exactly STARTED and COMPLETED of attempt 1 for each phase in the file's
      order, a checkpoint of each backfill and contract, no NULL row and no lock. */
  lemma RunsToTheEnd(c: Config, nulls: nat, pid: ProcessId, resume: bool) returns (ls: seq<Label>)
    requires Distinct(c) && c != [] && forall i :: 0 <= i < |c| ==> KnownPhase(c[i].name)
    requires nulls == 0 || c[0].name in {"expand", "backfill"}
    ensures var s := Exec(c, Init(nulls), ls);
            && s.procs.Keys == {pid} && s.procs[pid].outcome == Success && s.procs[pid].pc == Returned
            && s.db.history == FirstAttempts(c, pid, |c|) && s.db.checkpoints == FirstCheckpoints(c, |c|)
            && s.db.lock == None && s.nulls == 0
  {
    var t := PhasesComplete(c, nulls, pid, resume, |c|);
    ls :| Exec(c, Init(nulls), ls) == t;
  }
}
