/** What every interleaving keeps true of the history and the checkpoints, with no assumption about time,
    about the lock, or about which processes crash. */
module HistorySafety {
  import opened Store
  import opened Protocol

  /** A prefix of STARTED COMPLETED, or of STARTED (FAILED | TIMED_OUT) ROLLED_BACK, all by one writer. */
  ghost predicate AttemptGrammar(rows: seq<PhaseEvent>) {
    && (|rows| > 0 ==> rows[0].kind == Started)
    && (|rows| > 1 ==> rows[1].kind in {Completed, Failed, TimedOut} && rows[1].writer == rows[0].writer)
    && (|rows| > 2 ==> rows[1].kind != Completed && rows[2].kind == RolledBack && rows[2].writer == rows[0].writer)
    && |rows| <= 3
  }

  ghost predicate CompletedNow(h: seq<PhaseEvent>, phase: string) {
    CompletedBefore(h, |h|, phase)
  }

  /** The first n phases have each completed. */
  ghost predicate PrefixCompleted(c: Config, h: seq<PhaseEvent>, n: nat)
    requires n <= |c|
  {
    forall j :: 0 <= j < n ==> CompletedNow(h, c[j].name)
  }

  ghost predicate Distinct(c: Config) {
    forall i, j :: 0 <= i < j < |c| ==> c[i].name != c[j].name
  }

  /** Every event of a phase is preceded by a COMPLETED event of each earlier phase. */
  ghost predicate PhasesInOrder(c: Config, h: seq<PhaseEvent>) {
    forall k, i, j :: 0 <= k < |h| && 0 <= j < i < |c| && h[k].phase == c[i].name ==> CompletedBefore(h, k, c[j].name)
  }

  ghost predicate StartedInOrder(h: seq<PhaseEvent>) {
    forall i, j :: 0 <= i < j < |h| && h[i].kind == Started && h[j].kind == Started && h[i].phase == h[j].phase
                   ==> h[i].attempt < h[j].attempt
  }

  ghost predicate HistoryOk(c: Config, h: seq<PhaseEvent>) {
    && (forall ph: string, a: nat :: AttemptGrammar(Rows(h, ph, a)))
    && (forall ph: string, a: nat :: Rows(h, ph, a) != [] <==> 1 <= a <= MaxAttemptNumber(h, ph))
    && StartedInOrder(h)
    && (Distinct(c) ==> PhasesInOrder(c, h))
  }

  /** Ties a process's program counter to the rows of the attempt it is running. */
  ghost predicate ProcessOk(c: Config, h: seq<PhaseEvent>, pid: ProcessId, p: Process) {
    && p.idx <= |c|
    && (Live(p) ==> p.idx < |c|)
    && (p.outcome == Success ==> p.idx == |c|)
    && PrefixCompleted(c, h, p.idx)
    && (Live(p) ==>
          var name := c[p.idx].name;
          var started := PhaseEvent(name, p.attempt, Started, pid);
          var ended := PhaseEvent(name, p.attempt, TerminalKind(p.result), pid);
          && (p.pc == Decide ==> p.latest.Some? && p.latest.value.kind == Completed ==> CompletedNow(h, name))
          && (p.pc == ReadLock ==> p.latest.Some? && p.latest.value.kind == Completed ==> CompletedNow(h, name))
          && (p.pc == InsertStarted ==> 1 <= p.attempt <= MaxAttemptNumber(h, name) + 1)
          && (p.pc == Executing || p.pc == Guard || p.pc == InsertTerminal ==> Rows(h, name, p.attempt) == [started])
          && (p.pc == RollingBack || p.pc == InsertRolledBack ==>
                p.result != ExecOk && Rows(h, name, p.attempt) == [started, ended])
          && (p.pc == Releasing ==> CompletedNow(h, name)))
  }

  ghost predicate CheckpointsOk(db: Tables) {
    forall r :: r in db.checkpoints ==> Rows(db.history, r.phase, r.attempt) != []
  }

  ghost predicate Safe(c: Config, s: State) {
    && HistoryOk(c, s.db.history)
    && CheckpointsOk(s.db)
    && (forall pid :: pid in s.procs ==> ProcessOk(c, s.db.history, pid, s.procs[pid]))
  }

  // ----- One append

  /** `e` is the next row the process writing it may add. */
  ghost predicate NextRow(h: seq<PhaseEvent>, e: PhaseEvent) {
    var rows := Rows(h, e.phase, e.attempt);
    || (rows == [] && e.kind == Started && e.attempt == MaxAttemptNumber(h, e.phase) + 1)
    || (rows == [PhaseEvent(e.phase, e.attempt, Started, e.writer)] && e.kind in {Completed, Failed, TimedOut})
    || (|rows| == 2 && rows[0].writer == e.writer && rows[1].kind in {Failed, TimedOut} && e.kind == RolledBack)
  }

  lemma CompletedStays(h: seq<PhaseEvent>, e: PhaseEvent, ph: string)
    ensures CompletedNow(h, ph) ==> CompletedNow(h + [e], ph)
    ensures e.phase == ph && e.kind == Completed ==> CompletedNow(h + [e], ph)
  {
    if CompletedNow(h, ph) {
      var i :| 0 <= i < |h| && h[i].phase == ph && h[i].kind == Completed;
      assert (h + [e])[i] == h[i];
    }
    assert (h + [e])[|h|] == e;
  }

  lemma CompletedAppend(h: seq<PhaseEvent>, e: PhaseEvent, ph: string)
    ensures CompletedNow(h + [e], ph) <==> CompletedNow(h, ph) || (ph == e.phase && e.kind == Completed)
  {
    CompletedStays(h, e, ph);
    if i :| 0 <= i < |h + [e]| && (h + [e])[i].phase == ph && (h + [e])[i].kind == Completed {
      assert i < |h| ==> h[i] == (h + [e])[i];
    }
  }

  lemma PrefixStays(c: Config, h: seq<PhaseEvent>, e: PhaseEvent, n: nat)
    requires n <= |c| && PrefixCompleted(c, h, n)
    ensures PrefixCompleted(c, h + [e], n)
  {
    forall j | 0 <= j < n
      ensures CompletedNow(h + [e], c[j].name)
    {
      CompletedStays(h, e, c[j].name);
    }
  }

  lemma AppendKeepsOrder(c: Config, h: seq<PhaseEvent>, e: PhaseEvent, idx: nat)
    requires PhasesInOrder(c, h) && Distinct(c)
    requires idx < |c| && e.phase == c[idx].name
    requires PrefixCompleted(c, h, idx)
    ensures PhasesInOrder(c, h + [e])
  {
    var h' := h + [e];
    forall k, i, j | 0 <= k < |h'| && 0 <= j < i < |c| && h'[k].phase == c[i].name
      ensures CompletedBefore(h', k, c[j].name)
    {
      assert CompletedBefore(h, k, c[j].name) by {
        if k == |h| {
          assert i == idx;
        } else {
          assert h'[k] == h[k];
        }
      }
      var m :| 0 <= m < k && h[m].phase == c[j].name && h[m].kind == Completed;
      assert h'[m] == h[m];
    }
  }

  lemma AppendKeepsRows(h: seq<PhaseEvent>, e: PhaseEvent)
    requires forall ph: string, a: nat :: AttemptGrammar(Rows(h, ph, a))
    requires forall ph: string, a: nat :: Rows(h, ph, a) != [] <==> 1 <= a <= MaxAttemptNumber(h, ph)
    requires NextRow(h, e)
    ensures forall ph: string, a: nat :: AttemptGrammar(Rows(h + [e], ph, a))
    ensures forall ph: string, a: nat :: Rows(h + [e], ph, a) != [] <==> 1 <= a <= MaxAttemptNumber(h + [e], ph)
  {
    RowsAppend(h, e);
    assert AttemptGrammar(Rows(h, e.phase, e.attempt) + [e]);
  }

  lemma AppendKeepsStarted(h: seq<PhaseEvent>, e: PhaseEvent)
    requires StartedInOrder(h)
    requires e.kind == Started ==> e.attempt == MaxAttemptNumber(h, e.phase) + 1
    ensures StartedInOrder(h + [e])
  {
    MaxAttemptIsBound(h, e.phase);
    assert forall i :: 0 <= i < |h| ==> (h + [e])[i] == h[i];
  }

  lemma AppendKeepsHistory(c: Config, h: seq<PhaseEvent>, e: PhaseEvent, idx: nat)
    requires HistoryOk(c, h) && NextRow(h, e)
    requires idx < |c| && e.phase == c[idx].name
    requires PrefixCompleted(c, h, idx)
    ensures HistoryOk(c, h + [e])
  {
    AppendKeepsRows(h, e);
    AppendKeepsStarted(h, e);
    if Distinct(c) {
      AppendKeepsOrder(c, h, e, idx);
    }
  }

  lemma AppendKeepsOther(c: Config, h: seq<PhaseEvent>, e: PhaseEvent, pid: ProcessId, p: Process)
    requires HistoryOk(c, h) && NextRow(h, e) && ProcessOk(c, h, pid, p) && pid != e.writer
    ensures ProcessOk(c, h + [e], pid, p)
  {
    RowsAppend(h, e);
    PrefixStays(c, h, e, p.idx);
    if p.idx < |c| {
      CompletedStays(h, e, c[p.idx].name);
    }
  }

  /** A row of the attempt makes the insert hit the unique key exactly when it has the same event type. */
  lemma DuplicateIffRow(h: seq<PhaseEvent>, e: PhaseEvent)
    ensures DuplicateKey(h, e) <==> exists r :: r in Rows(h, e.phase, e.attempt) && r.kind == e.kind
  {
    if DuplicateKey(h, e) {
      var i :| 0 <= i < |h| && h[i].phase == e.phase && h[i].attempt == e.attempt && h[i].kind == e.kind;
      RowsMember(h, e.phase, e.attempt, h[i]);
    }
    forall r | r in Rows(h, e.phase, e.attempt) && r.kind == e.kind
      ensures DuplicateKey(h, e)
    {
      RowsMember(h, e.phase, e.attempt, r);
    }
  }

  /** An insert either finds its key taken, which only a STARTED can, or adds the next row of its attempt. */
  lemma InsertIsNextRow(c: Config, h: seq<PhaseEvent>, pid: ProcessId, p: Process)
    requires HistoryOk(c, h) && ProcessOk(c, h, pid, p) && Inserting(p.pc)
    ensures var e := PendingRow(c[p.idx].name, pid, p);
            && (!DuplicateKey(h, e) ==> NextRow(h, e))
            && (DuplicateKey(h, e) ==> p.pc == InsertStarted)
  {
    var e := PendingRow(c[p.idx].name, pid, p);
    var rows := Rows(h, e.phase, e.attempt);
    DuplicateIffRow(h, e);
    if p.pc == InsertStarted && rows != [] {
      assert rows[0] in rows && rows[0].kind == Started;
    }
  }

  /** The process that inserted a row moves on to where its rows say. */
  lemma WriterMovesOn(c: Config, h: seq<PhaseEvent>, now: int, pid: ProcessId, p: Process, r: Reply)
    requires ProcessOk(c, h, pid, p) && Inserting(p.pc) && NextRow(h, PendingRow(c[p.idx].name, pid, p))
    ensures var name := c[p.idx].name;
            ProcessOk(c, h + [PendingRow(name, pid, p)], pid, AfterInsert(c[p.idx], now, p, r))
  {
    var e := PendingRow(c[p.idx].name, pid, p);
    RowsAppend(h, e);
    PrefixStays(c, h, e, p.idx);
    CompletedStays(h, e, e.phase);
  }

  /** The terminal guard never fires: the only row of the attempt is its own STARTED. */
  lemma GuardSeesStarted(c: Config, h: seq<PhaseEvent>, pid: ProcessId, p: Process)
    requires ProcessOk(c, h, pid, p) && p.pc == Guard
    ensures var name := c[p.idx].name;
            && LatestEventForAttempt(h, name, p.attempt) == Some(PhaseEvent(name, p.attempt, Started, pid))
            && forall f :: GuardStep(c, name, h, p, f) == p.(pc := InsertTerminal)
  {
    LatestEventForAttemptIsLast(h, c[p.idx].name, p.attempt);
  }

  lemma LatestCompleted(h: seq<PhaseEvent>, ph: string)
    ensures LatestEvent(h, ph).Some? && LatestEvent(h, ph).value.kind == Completed ==> CompletedNow(h, ph)
  {
    LatestEventIsLast(h, ph);
  }

  lemma LeavingIsOk(c: Config, h: seq<PhaseEvent>, pid: ProcessId, p: Process)
    requires ProcessOk(c, h, pid, p) && Live(p)
    ensures forall e :: ProcessOk(c, h, pid, p.Fail(e))
    ensures CompletedNow(h, c[p.idx].name) ==> ProcessOk(c, h, pid, p.NextPhase(c))
  {
    assert CompletedNow(h, c[p.idx].name) ==> PrefixCompleted(c, h, p.idx + 1);
  }

  lemma ReaderMovesOn(c: Config, now: int, db: Tables, pid: ProcessId, p: Process, f: Fault)
    requires ProcessOk(c, db.history, pid, p) && Reading(p.pc)
    ensures ProcessOk(c, db.history, pid, ReadStep(c, now, db, p, f))
  {
    LeavingIsOk(c, db.history, pid, p);
    if p.pc == Guard {
      GuardSeesStarted(c, db.history, pid, p);
    } else {
      LatestCompleted(db.history, c[p.idx].name);
    }
  }

  lemma LockerMovesOn(c: Config, h: seq<PhaseEvent>, pid: ProcessId, p: Process, r: Reply)
    requires ProcessOk(c, h, pid, p) && Locking(p.pc)
    ensures ProcessOk(c, h, pid, AfterLock(c, p, r))
  {
    LeavingIsOk(c, h, pid, p);
  }

  // ----- Every label keeps Safe

  /** A step that adds no history row needs looking at only where its process goes. */
  lemma QuietKeepsSafe(c: Config, s: State, s': State, pid: ProcessId, p': Process)
    requires Safe(c, s)
    requires s'.db.history == s.db.history && s'.db.checkpoints == s.db.checkpoints
    requires s'.procs == s.procs[pid := p'] && ProcessOk(c, s.db.history, pid, p')
    ensures Safe(c, s')
  {
  }

  lemma AppendKeepsSafe(c: Config, s: State, pid: ProcessId, p': Process)
    requires Safe(c, s) && pid in s.procs && s.procs[pid].idx < |c| && Inserting(s.procs[pid].pc)
    requires var e := PendingRow(c[s.procs[pid].idx].name, pid, s.procs[pid]);
             NextRow(s.db.history, e) && ProcessOk(c, s.db.history + [e], pid, p')
    ensures var e := PendingRow(c[s.procs[pid].idx].name, pid, s.procs[pid]);
            Safe(c, Put(s.(db := s.db.(history := s.db.history + [e])), pid, p'))
  {
    var h, p := s.db.history, s.procs[pid];
    var e := PendingRow(c[p.idx].name, pid, p);
    AppendKeepsHistory(c, h, e, p.idx);
    forall q | q in s.procs && q != pid
      ensures ProcessOk(c, h + [e], q, s.procs[q])
    {
      AppendKeepsOther(c, h, e, q, s.procs[q]);
    }
    RowsAppend(h, e);
  }

  lemma InsertKeepsSafe(c: Config, s: State, pid: ProcessId, p: Process, f: Fault)
    requires Safe(c, s) && pid in s.procs && p == s.procs[pid] && p.idx < |c| && Inserting(p.pc)
    ensures Safe(c, InsertStep(c[p.idx], s, pid, p, f))
  {
    var h := s.db.history;
    var e := PendingRow(c[p.idx].name, pid, p);
    var r := InsertEvent(s.db, e, f).1;
    InsertIsNextRow(c, h, pid, p);
    if f != Lost(false) && !DuplicateKey(h, e) {
      WriterMovesOn(c, h, s.now, pid, p, r);
      AppendKeepsSafe(c, s, pid, AfterInsert(c[p.idx], s.now, p, r));
    } else {
      QuietKeepsSafe(c, s, InsertStep(c[p.idx], s, pid, p, f), pid, AfterInsert(c[p.idx], s.now, p, r));
    }
  }

  lemma DoKeepsSafe(c: Config, s: State, pid: ProcessId, p: Process, f: Fault)
    requires Safe(c, s) && pid in s.procs && p == s.procs[pid] && p.idx < |c|
    ensures Safe(c, DoStep(c, s, pid, p, f))
  {
    var s' := DoStep(c, s, pid, p, f);
    if Reading(p.pc) {
      ReaderMovesOn(c, s.now, s.db, pid, p, f);
      QuietKeepsSafe(c, s, s', pid, ReadStep(c, s.now, s.db, p, f));
    } else if Inserting(p.pc) {
      InsertKeepsSafe(c, s, pid, p, f);
    } else if Locking(p.pc) {
      var r := LockCall(s.now, s.db, pid, p, f).1;
      LockerMovesOn(c, s.db.history, pid, p, r);
      QuietKeepsSafe(c, s, s', pid, AfterLock(c, p, r));
    }
  }

  /** The fields ProcessOk looks at are those of `p`, but for a crash or a finished Execute. */
  ghost predicate MovesTo(p: Process, q: Process) {
    && q.idx == p.idx && q.latest == p.latest && q.attempt == p.attempt && q.outcome == p.outcome
    && ((q.pc == p.pc && q.result == p.result) || q.pc == Crashed || (p.pc == Executing && q.pc == Guard))
  }

  lemma OtherActionMoves(c: Config, s: State, pid: ProcessId, a: Action)
    requires pid in s.procs && !a.Do? && !a.Checkpoint?
    ensures var s' := Apply(c, s, Act(pid, a));
            && s'.db.history == s.db.history && s'.db.checkpoints == s.db.checkpoints
            && pid in s'.procs && s'.procs == s.procs[pid := s'.procs[pid]]
            && MovesTo(s.procs[pid], s'.procs[pid])
  {
    assert s.procs == s.procs[pid := s.procs[pid]];
  }

  /** A label that is not of this process leaves it as it is, or starts it. */
  lemma OthersStay(c: Config, s: State, l: Label, pid: ProcessId)
    requires !(l.Act? && l.pid == pid && pid in s.procs && s.procs[pid].idx < |c|)
    ensures var t := Apply(c, s, l);
            && (pid in s.procs ==> pid in t.procs && t.procs[pid] == s.procs[pid])
            && (pid !in s.procs && pid in t.procs ==>
                  l.Start? && exists resume :: t.procs[pid] == NewProcess(c, resume))
  {
    if l.Act? && l.pid in s.procs && !l.action.Do? && !l.action.Checkpoint? {
      OtherActionMoves(c, s, l.pid, l.action);
    }
    if l.Start? && pid !in s.procs {
      assert l.pid == pid ==> Apply(c, s, l).procs[pid] == NewProcess(c, l.resume);
    }
  }

  lemma MovesToKeepsOk(c: Config, h: seq<PhaseEvent>, pid: ProcessId, p: Process, q: Process)
    requires ProcessOk(c, h, pid, p) && MovesTo(p, q)
    ensures ProcessOk(c, h, pid, q)
  {
  }

  lemma OtherActionKeepsSafe(c: Config, s: State, pid: ProcessId, a: Action)
    requires Safe(c, s) && pid in s.procs && !a.Do? && !a.Checkpoint?
    ensures Safe(c, Apply(c, s, Act(pid, a)))
  {
    var s' := Apply(c, s, Act(pid, a));
    OtherActionMoves(c, s, pid, a);
    MovesToKeepsOk(c, s.db.history, pid, s.procs[pid], s'.procs[pid]);
    QuietKeepsSafe(c, s, s', pid, s'.procs[pid]);
  }

  lemma ApplyKeepsSafe(c: Config, s: State, l: Label)
    requires Safe(c, s)
    ensures Safe(c, Apply(c, s, l))
  {
    match l
    case Act(pid, action) =>
      if pid in s.procs && s.procs[pid].idx < |c| {
        if action.Do? {
          DoKeepsSafe(c, s, pid, s.procs[pid], action.fault);
        } else if !action.Checkpoint? {
          OtherActionKeepsSafe(c, s, pid, action);
        }
      }
    case Start(pid, resume) =>
      if pid !in s.procs {
        QuietKeepsSafe(c, s, Apply(c, s, l), pid, NewProcess(c, resume));
      }
    case _ =>
  }

  /** Safety over all interleavings: any processes, any faults, crashes, expired and stolen locks. */
  lemma {:induction false} SafeInEveryRun(c: Config, nulls: nat, ls: seq<Label>)
    ensures Safe(c, Exec(c, Init(nulls), ls))
  {
    if ls != [] {
      SafeInEveryRun(c, nulls, ls[..|ls| - 1]);
      ApplyKeepsSafe(c, Exec(c, Init(nulls), ls[..|ls| - 1]), Last(ls));
    }
  }

  /** What one label can do to the history: nothing, or one next row by a process that is alive. */
  ghost predicate OneRow(s: State, h': seq<PhaseEvent>) {
    var h := s.db.history;
    || h' == h
    || (|h'| == |h| + 1 && h' == h + [Last(h')] && NextRow(h, Last(h'))
        && Last(h').writer in s.procs && Inserting(s.procs[Last(h').writer].pc))
  }

  lemma StepAddsOneRow(c: Config, s: State, l: Label)
    requires Safe(c, s)
    ensures OneRow(s, Apply(c, s, l).db.history)
  {
    if l.Act? && l.pid in s.procs && s.procs[l.pid].idx < |c| {
      var p := s.procs[l.pid];
      if l.action.Do? {
        if Inserting(p.pc) {
          InsertIsNextRow(c, s.db.history, l.pid, p);
        }
      } else if !l.action.Checkpoint? {
        OtherActionMoves(c, s, l.pid, l.action);
      }
    }
  }

  /** Nobody moves a process that has returned or crashed. */
  lemma DeadStayDead(c: Config, s: State, l: Label, pid: ProcessId)
    requires pid in s.procs && !Live(s.procs[pid])
    ensures pid in Apply(c, s, l).procs && !Live(Apply(c, s, l).procs[pid])
  {
    if !(l.Act? && l.pid == pid && s.procs[pid].idx < |c|) {
      OthersStay(c, s, l, pid);
    } else if l.action.Do? {
      assert Apply(c, s, l) == s;
    } else if !l.action.Checkpoint? {
      OtherActionMoves(c, s, l.pid, l.action);
    }
  }

  // ----- What that means for a reader of the tables

  /** Once STARTED is in, neither the terminal insert nor the ROLLED_BACK insert can hit the unique key,
      and the terminal guard lets every process through. */
  lemma NoRejectionAfterStarted(c: Config, nulls: nat, ls: seq<Label>, pid: ProcessId)
    requires var s := Exec(c, Init(nulls), ls);
             pid in s.procs && s.procs[pid].pc in {Guard, InsertTerminal, InsertRolledBack}
    ensures var s := Exec(c, Init(nulls), ls);
            var p := s.procs[pid];
            && p.idx < |c|
            && (p.pc == Guard ==> forall f :: GuardStep(c, c[p.idx].name, s.db.history, p, f).pc == InsertTerminal)
            && (p.pc != Guard ==> forall f :: InsertEvent(s.db, PendingRow(c[p.idx].name, pid, p), f).1 != Duplicate)
            && (p.pc != Guard ==> InsertEvent(s.db, PendingRow(c[p.idx].name, pid, p), NoFault).1 == Accepted)
  {
    SafeInEveryRun(c, nulls, ls);
    var s := Exec(c, Init(nulls), ls);
    var p := s.procs[pid];
    if p.pc == Guard {
      GuardSeesStarted(c, s.db.history, pid, p);
    } else {
      InsertIsNextRow(c, s.db.history, pid, p);
    }
  }

  /** A process whose STARTED goes in finds no checkpoint of its own attempt, whatever earlier attempts left
      behind: `resume` restarts the executor from zero. */
  lemma NewAttemptHasNoCheckpoint(c: Config, nulls: nat, ls: seq<Label>, pid: ProcessId)
    requires var s := Exec(c, Init(nulls), ls);
             && pid in s.procs && s.procs[pid].pc == InsertStarted && s.procs[pid].idx < |c|
             && !DuplicateKey(s.db.history, PendingRow(c[s.procs[pid].idx].name, pid, s.procs[pid]))
    ensures var s := Exec(c, Init(nulls), ls);
            var p := s.procs[pid];
            LatestCheckpoint(s.db.checkpoints, c[p.idx].name, p.attempt) == None
  {
    SafeInEveryRun(c, nulls, ls);
    var s := Exec(c, Init(nulls), ls);
    var p := s.procs[pid];
    InsertIsNextRow(c, s.db.history, pid, p);
    LatestCheckpointIsRow(s.db.checkpoints, c[p.idx].name, p.attempt);
  }

  /** `Run` returns nil only when every phase has a COMPLETED row. */
  lemma SuccessMeansAllCompleted(c: Config, nulls: nat, ls: seq<Label>, pid: ProcessId)
    requires var s := Exec(c, Init(nulls), ls);
             pid in s.procs && s.procs[pid].outcome == Success
    ensures forall i :: 0 <= i < |c| ==> CompletedNow(Exec(c, Init(nulls), ls).db.history, c[i].name)
  {
    SafeInEveryRun(c, nulls, ls);
  }

  /** Any event of the contract phase has an earlier COMPLETED of every phase configured before it. */
  lemma ContractComesLast(c: Config, nulls: nat, ls: seq<Label>, k: nat, i: nat)
    requires Distinct(c) && i < |c| && c[i].name == "contract"
    requires k < |Exec(c, Init(nulls), ls).db.history| && Exec(c, Init(nulls), ls).db.history[k].phase == "contract"
    ensures forall j :: 0 <= j < i ==> CompletedBefore(Exec(c, Init(nulls), ls).db.history, k, c[j].name)
  {
    SafeInEveryRun(c, nulls, ls);
  }

  lemma StepOnlyGrows(c: Config, s: State, l: Label)
    ensures s.db.history <= Apply(c, s, l).db.history && s.db.checkpoints <= Apply(c, s, l).db.checkpoints
  {
    if l.Act? && l.pid in s.procs && !l.action.Do? && !l.action.Checkpoint? {
      OtherActionMoves(c, s, l.pid, l.action);
    }
  }

  /** The history and the checkpoints are append-only. */
  lemma {:induction false} TablesOnlyGrow(c: Config, s: State, ls: seq<Label>)
    ensures s.db.history <= Exec(c, s, ls).db.history && s.db.checkpoints <= Exec(c, s, ls).db.checkpoints
  {
    if ls != [] {
      TablesOnlyGrow(c, s, ls[..|ls| - 1]);
      StepOnlyGrows(c, Exec(c, s, ls[..|ls| - 1]), Last(ls));
    }
  }
}
