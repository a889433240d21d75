/** Runs that do not overlap: a process starts only when no other is alive. Nothing else is assumed, neither of the
    migration file nor of other clients. */
module NonOverlap {
  import opened Store
  import opened Protocol
  import opened HistorySafety

  ghost predicate SerialStep(s: State, l: Label) {
    l.Start? ==> forall q :: q in s.procs ==> !Live(s.procs[q])
  }

  ghost predicate SerialRun(c: Config, s: State, ls: seq<Label>)
    decreases |ls|
  {
    ls == [] || (SerialStep(Exec(c, s, ls[..|ls| - 1]), Last(ls)) && SerialRun(c, s, ls[..|ls| - 1]))
  }

  /** Past the state check and not yet completed. */
  predicate Busy(pc: Counter) {
    || pc == ReadClock || pc == TryInsertLock || pc == TrySteal || pc == ReadMax || pc == InsertStarted
    || pc == Executing || pc == Guard || pc == InsertTerminal || pc == RollingBack || pc == InsertRolledBack
  }

  /** What the only live process knows about its phase. */
  ghost predicate Knows(c: Config, h: seq<PhaseEvent>, p: Process) {
    Live(p) ==>
      && p.idx < |c|
      && (Deciding(p.pc) ==> p.latest == LatestEvent(h, c[p.idx].name))
      && (Busy(p.pc) ==> !CompletedNow(h, c[p.idx].name))
  }

  /** A phase that has completed has no later event. */
  ghost predicate CompletedIsLatest(h: seq<PhaseEvent>) {
    forall ph: string :: CompletedNow(h, ph) ==> LatestEvent(h, ph).Some? && LatestEvent(h, ph).value.kind == Completed
  }

  ghost predicate Serial(c: Config, s: State) {
    && Safe(c, s)
    && (forall p, q :: p in s.procs && q in s.procs && Live(s.procs[p]) && Live(s.procs[q]) ==> p == q)
    && (forall q :: q in s.procs ==> Knows(c, s.db.history, s.procs[q]))
    && CompletedIsLatest(s.db.history)
  }

  /** The one live process moves, or nobody does. */
  lemma OnlyOneMoves(c: Config, s: State, s': State, pid: ProcessId, p': Process)
    requires Serial(c, s) && Safe(c, s') && pid in s.procs && Live(s.procs[pid])
    requires s'.procs == s.procs[pid := p'] && Knows(c, s'.db.history, p') && CompletedIsLatest(s'.db.history)
    ensures Serial(c, s')
  {
  }

  lemma AppendKeepsLatest(h: seq<PhaseEvent>, e: PhaseEvent)
    requires CompletedIsLatest(h) && !CompletedNow(h, e.phase)
    ensures CompletedIsLatest(h + [e])
    ensures CompletedNow(h + [e], e.phase) <==> e.kind == Completed
  {
    RowsAppend(h, e);
    forall ph: string
      ensures CompletedNow(h + [e], ph) <==> CompletedNow(h, ph) || (ph == e.phase && e.kind == Completed)
    {
      CompletedAppend(h, e, ph);
    }
  }

  /** The process that inserted, whether or not its row went in. */
  lemma WriterKnows(c: Config, h: seq<PhaseEvent>, now: int, pid: ProcessId, p: Process, r: Reply)
    requires Knows(c, h, p) && CompletedIsLatest(h) && Inserting(p.pc)
    ensures !CompletedNow(h, c[p.idx].name)
    ensures r != Accepted ==> Knows(c, h, AfterInsert(c[p.idx], now, p, r))
    ensures Knows(c, h + [PendingRow(c[p.idx].name, pid, p)], AfterInsert(c[p.idx], now, p, r))
  {
    AppendKeepsLatest(h, PendingRow(c[p.idx].name, pid, p));
  }

  lemma InsertKeepsSerial(c: Config, s: State, pid: ProcessId, p: Process, f: Fault)
    requires Serial(c, s) && pid in s.procs && p == s.procs[pid] && p.idx < |c| && Inserting(p.pc)
    requires Safe(c, InsertStep(c[p.idx], s, pid, p, f))
    ensures Serial(c, InsertStep(c[p.idx], s, pid, p, f))
  {
    var h, e := s.db.history, PendingRow(c[p.idx].name, pid, p);
    var (db, r) := InsertEvent(s.db, e, f);
    WriterKnows(c, h, s.now, pid, p, r);
    if db.history != h {
      AppendKeepsLatest(h, e);
    }
    OnlyOneMoves(c, s, InsertStep(c[p.idx], s, pid, p, f), pid, AfterInsert(c[p.idx], s.now, p, r));
  }

  lemma ReaderKnows(c: Config, now: int, db: Tables, pid: ProcessId, p: Process, f: Fault)
    requires ProcessOk(c, db.history, pid, p) && Knows(c, db.history, p) && CompletedIsLatest(db.history)
    requires Reading(p.pc)
    ensures Knows(c, db.history, ReadStep(c, now, db, p, f))
  {
    if p.pc == Guard {
      GuardSeesStarted(c, db.history, pid, p);
      assert ReadStep(c, now, db, p, f) == p.(pc := InsertTerminal);
    }
  }

  lemma LockerKnows(c: Config, h: seq<PhaseEvent>, p: Process, r: Reply)
    requires Knows(c, h, p) && Locking(p.pc)
    ensures Knows(c, h, AfterLock(c, p, r))
  {
  }

  lemma ReadKeepsSerial(c: Config, s: State, pid: ProcessId, p: Process, f: Fault)
    requires Serial(c, s) && pid in s.procs && p == s.procs[pid] && p.idx < |c| && Reading(p.pc)
    requires Safe(c, Put(s, pid, ReadStep(c, s.now, s.db, p, f)))
    ensures Serial(c, Put(s, pid, ReadStep(c, s.now, s.db, p, f)))
  {
    ReaderKnows(c, s.now, s.db, pid, p, f);
    OnlyOneMoves(c, s, Put(s, pid, ReadStep(c, s.now, s.db, p, f)), pid, ReadStep(c, s.now, s.db, p, f));
  }

  lemma LockKeepsSerial(c: Config, s: State, pid: ProcessId, p: Process, f: Fault)
    requires Serial(c, s) && pid in s.procs && p == s.procs[pid] && p.idx < |c| && Locking(p.pc)
    requires Safe(c, LockStep(c, s, pid, p, f))
    ensures Serial(c, LockStep(c, s, pid, p, f))
  {
    var r := LockCall(s.now, s.db, pid, p, f).1;
    LockerKnows(c, s.db.history, p, r);
    OnlyOneMoves(c, s, LockStep(c, s, pid, p, f), pid, AfterLock(c, p, r));
  }

  lemma DoKeepsSerial(c: Config, s: State, pid: ProcessId, p: Process, f: Fault)
    requires Serial(c, s) && pid in s.procs && p == s.procs[pid] && p.idx < |c|
    requires Safe(c, DoStep(c, s, pid, p, f))
    ensures Serial(c, DoStep(c, s, pid, p, f))
  {
    if Reading(p.pc) {
      ReadKeepsSerial(c, s, pid, p, f);
    } else if Inserting(p.pc) {
      InsertKeepsSerial(c, s, pid, p, f);
    } else if Locking(p.pc) {
      LockKeepsSerial(c, s, pid, p, f);
    }
  }

  /** The executor, the ticker, a crash, and the end of Execute. */
  lemma OtherActionKeepsSerial(c: Config, s: State, pid: ProcessId, a: Action)
    requires Serial(c, s) && pid in s.procs && !a.Do? && !a.Checkpoint?
    requires Safe(c, Apply(c, s, Act(pid, a)))
    ensures Serial(c, Apply(c, s, Act(pid, a)))
  {
    var s' := Apply(c, s, Act(pid, a));
    OtherActionMoves(c, s, pid, a);
    if Live(s.procs[pid]) {
      assert Knows(c, s.db.history, s.procs[pid]);
      OnlyOneMoves(c, s, s', pid, s'.procs[pid]);
    } else {
      assert s'.procs == s.procs;
    }
  }

  lemma StartKeepsSerial(c: Config, s: State, pid: ProcessId, p': Process)
    requires Serial(c, s) && Safe(c, Put(s, pid, p')) && forall q :: q in s.procs ==> !Live(s.procs[q])
    requires Knows(c, s.db.history, p')
    ensures Serial(c, Put(s, pid, p'))
  {
  }

  lemma StartStepKeepsSerial(c: Config, s: State, pid: ProcessId, resume: bool)
    requires Serial(c, s) && SerialStep(s, Start(pid, resume)) && Safe(c, Apply(c, s, Start(pid, resume)))
    ensures Serial(c, Apply(c, s, Start(pid, resume)))
  {
    if pid !in s.procs {
      StartKeepsSerial(c, s, pid, NewProcess(c, resume));
    }
  }

  lemma ActionKeepsSerial(c: Config, s: State, pid: ProcessId, a: Action)
    requires Serial(c, s) && pid in s.procs && s.procs[pid].idx < |c| && Safe(c, Apply(c, s, Act(pid, a)))
    ensures Serial(c, Apply(c, s, Act(pid, a)))
  {
    if a.Do? {
      DoKeepsSerial(c, s, pid, s.procs[pid], a.fault);
    } else if !a.Checkpoint? {
      OtherActionKeepsSerial(c, s, pid, a);
    }
  }

  /** The clock, gc and other clients. */
  lemma WorldKeepsSerial(c: Config, s: State, s': State)
    requires Serial(c, s) && Safe(c, s') && s'.procs == s.procs && s'.db.history == s.db.history
    ensures Serial(c, s')
  {
  }

  lemma StepKeepsSerial(c: Config, s: State, l: Label)
    requires Serial(c, s) && SerialStep(s, l)
    ensures Serial(c, Apply(c, s, l))
  {
    ApplyKeepsSafe(c, s, l);
    match l
    case Act(pid, a) =>
      if pid in s.procs && s.procs[pid].idx < |c| {
        ActionKeepsSerial(c, s, pid, a);
      } else {
        assert Apply(c, s, l) == s;
      }
    case Start(pid, resume) => StartStepKeepsSerial(c, s, pid, resume);
    case Tick(_) => WorldKeepsSerial(c, s, Apply(c, s, l));
    case Gc => WorldKeepsSerial(c, s, Apply(c, s, l));
    case Outside(_) => WorldKeepsSerial(c, s, Apply(c, s, l));
  }

  lemma {:induction false} SerialInEveryRun(c: Config, nulls: nat, ls: seq<Label>)
    requires SerialRun(c, Init(nulls), ls)
    ensures Serial(c, Exec(c, Init(nulls), ls))
  {
    if ls != [] {
      SerialInEveryRun(c, nulls, ls[..|ls| - 1]);
      StepKeepsSerial(c, Exec(c, Init(nulls), ls[..|ls| - 1]), Last(ls));
    }
  }

  /** Without overlap a phase that has completed is never executed again, nor started again. */
  lemma CompletedIsNotRerun(c: Config, nulls: nat, ls: seq<Label>, pid: ProcessId)
    requires SerialRun(c, Init(nulls), ls)
    requires var s := Exec(c, Init(nulls), ls);
             pid in s.procs && s.procs[pid].pc in {TryInsertLock, InsertStarted, Executing}
    ensures var s := Exec(c, Init(nulls), ls);
            s.procs[pid].idx < |c| && !CompletedNow(s.db.history, c[s.procs[pid].idx].name)
  {
    SerialInEveryRun(c, nulls, ls);
  }
}
