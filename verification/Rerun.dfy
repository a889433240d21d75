/** Exactly which runs start a phase again after it has completed. */
module Rerun {
  import opened Store
  import opened Protocol
  import opened HistorySafety
  import opened MutualExclusion

  /** The label is the read of the latest event, by process `pid`. */
  predicate ReadsLatest(c: Config, s: State, l: Label, pid: ProcessId) {
    && l.Act? && l.pid == pid && l.action.Do?
    && pid in s.procs && s.procs[pid].idx < |c| && s.procs[pid].pc == ReadLatest
  }

  /** The label is the statement with which AcquireLock succeeds. */
  predicate Acquires(c: Config, s: State, l: Label, pid: ProcessId) {
    && l.Act? && l.pid == pid && l.action.Do?
    && pid in s.procs && s.procs[pid].idx < |c| && (s.procs[pid].pc == TryInsertLock || s.procs[pid].pc == TrySteal)
    && pid in Apply(c, s, l).procs && Apply(c, s, l).procs[pid].pc == ReadMax
  }

  /** The history as it was at the process's last read of the latest event. Histories only grow, so how much of the
      present one it is tells the time of that read. */
  ghost function Seen(c: Config, nulls: nat, ls: seq<Label>, pid: ProcessId): seq<PhaseEvent>
    decreases |ls|
  {
    if ls == [] then []
    else
      var s := Exec(c, Init(nulls), ls[..|ls| - 1]);
      if ReadsLatest(c, s, Last(ls), pid) then s.db.history else Seen(c, nulls, ls[..|ls| - 1], pid)
  }

  /** The history as it was when the process last acquired the lock. */
  ghost function Held(c: Config, nulls: nat, ls: seq<Label>, pid: ProcessId): seq<PhaseEvent>
    decreases |ls|
  {
    if ls == [] then []
    else
      var s := Exec(c, Init(nulls), ls[..|ls| - 1]);
      if Acquires(c, s, Last(ls), pid) then s.db.history else Held(c, nulls, ls[..|ls| - 1], pid)
  }

  /** A COMPLETED of the phase among the rows [from, to). */
  ghost predicate CompletedBetween(h: seq<PhaseEvent>, from: nat, to: nat, phase: string) {
    exists k :: from <= k < to && k < |h| && h[k].phase == phase && h[k].kind == Completed
  }

  /** A COMPLETED of the phase that the latest event does not show: the phase has a later row. */
  ghost predicate HiddenCompleted(h: seq<PhaseEvent>, phase: string) {
    exists i, j :: 0 <= i < j < |h| && h[i].phase == phase && h[i].kind == Completed && h[j].phase == phase
  }

  // ----- What a process past its state check has read

  /** Past the state check, up to the insert of STARTED. */
  predicate Cleared(pc: Counter) {
    pc == ReadClock || pc == TryInsertLock || pc == TrySteal || pc == ReadMax || pc == InsertStarted
  }

  ghost predicate Saw(c: Config, p: Process, seen: seq<PhaseEvent>) {
    && (Deciding(p.pc) ==> p.idx < |c| && p.latest == LatestEvent(seen, c[p.idx].name))
    && (Cleared(p.pc) ==>
          && p.idx < |c| && p.latest == LatestEvent(seen, c[p.idx].name)
          && (p.latest.Some? ==> p.latest.value.kind != Completed))
  }

  ghost predicate SawIn(c: Config, s: State, pid: ProcessId, seen: seq<PhaseEvent>) {
    seen <= s.db.history && (pid in s.procs ==> Saw(c, s.procs[pid], seen))
  }

  lemma ReadKeepsSaw(c: Config, now: int, db: Tables, p: Process, f: Fault, seen: seq<PhaseEvent>)
    requires Saw(c, p, seen) && p.idx < |c| && Reading(p.pc)
    ensures Saw(c, ReadStep(c, now, db, p, f), if p.pc == ReadLatest then db.history else seen)
  {
  }

  lemma LockerKeepsSaw(c: Config, p: Process, r: Reply, seen: seq<PhaseEvent>)
    requires Saw(c, p, seen) && Locking(p.pc)
    ensures Saw(c, AfterLock(c, p, r), seen)
  {
  }

  lemma WriterKeepsSaw(c: Config, now: int, p: Process, r: Reply, seen: seq<PhaseEvent>)
    requires Saw(c, p, seen) && Inserting(p.pc) && p.idx < |c|
    ensures Saw(c, AfterInsert(c[p.idx], now, p, r), seen)
  {
  }

  lemma MovedKeepsSaw(c: Config, s: State, pid: ProcessId, p: Process, f: Fault, seen: seq<PhaseEvent>)
    requires Saw(c, p, seen) && p.idx < |c|
    ensures Saw(c, Moved(c, s, pid, p, f), if p.pc == ReadLatest then s.db.history else seen)
  {
    if Reading(p.pc) {
      ReadKeepsSaw(c, s.now, s.db, p, f, seen);
    } else if Inserting(p.pc) {
      WriterKeepsSaw(c, s.now, p, InsertEvent(s.db, PendingRow(c[p.idx].name, pid, p), f).1, seen);
    } else if Locking(p.pc) {
      LockerKeepsSaw(c, p, LockCall(s.now, s.db, pid, p, f).1, seen);
    }
  }

  lemma StepKeepsSaw(c: Config, s: State, l: Label, pid: ProcessId, seen: seq<PhaseEvent>)
    requires SawIn(c, s, pid, seen)
    ensures SawIn(c, Apply(c, s, l), pid, if ReadsLatest(c, s, l, pid) then s.db.history else seen)
  {
    StepOnlyGrows(c, s, l);
    if l.Act? && l.pid == pid && pid in s.procs && s.procs[pid].idx < |c| {
      if l.action.Do? {
        DoMoves(c, s, pid, s.procs[pid], l.action.fault);
        MovedKeepsSaw(c, s, pid, s.procs[pid], l.action.fault, seen);
      } else if !l.action.Checkpoint? {
        OtherActionMoves(c, s, pid, l.action);
      }
    } else {
      OthersStay(c, s, l, pid);
    }
  }

  lemma {:induction false} SawInEveryRun(c: Config, nulls: nat, ls: seq<Label>, pid: ProcessId)
    ensures SawIn(c, Exec(c, Init(nulls), ls), pid, Seen(c, nulls, ls, pid))
  {
    if ls != [] {
      var front := ls[..|ls| - 1];
      SawInEveryRun(c, nulls, front, pid);
      StepKeepsSaw(c, Exec(c, Init(nulls), front), Last(ls), pid, Seen(c, nulls, front, pid));
    }
  }

  /** A STARTED goes in. */
  ghost predicate StartGoesIn(c: Config, s: State, pid: ProcessId, f: Fault) {
    && pid in s.procs && s.procs[pid].pc == InsertStarted && s.procs[pid].idx < |c|
    && Apply(c, s, Act(pid, Do(f))).db.history
       == s.db.history + [PendingRow(c[s.procs[pid].idx].name, pid, s.procs[pid])]
  }

  lemma HiddenIffNotLatest(h: seq<PhaseEvent>, phase: string)
    requires LatestEvent(h, phase).Some? ==> LatestEvent(h, phase).value.kind != Completed
    ensures CompletedNow(h, phase) <==> HiddenCompleted(h, phase)
  {
    LatestEventIsLast(h, phase);
    if CompletedNow(h, phase) {
      var i :| 0 <= i < |h| && h[i].phase == phase && h[i].kind == Completed;
      var j :| 0 <= j < |h| && h[j] == LatestEvent(h, phase).value && h[j].phase == phase
               && forall k :: j < k < |h| ==> h[k].phase != phase;
      assert i < j;
    }
  }

  function PhaseOf(c: Config, s: State, pid: ProcessId): string
    requires pid in s.procs && s.procs[pid].idx < |c|
  {
    c[s.procs[pid].idx].name
  }

  /** The row that goes in, a STARTED of the phase, has a COMPLETED of the phase before it. */
  ghost predicate StartedAfterCompleted(c: Config, s: State, pid: ProcessId, f: Fault)
    requires pid in s.procs && s.procs[pid].idx < |c|
  {
    var h' := Apply(c, s, Act(pid, Do(f))).db.history;
    && h' != [] && Last(h').kind == Started && Last(h').phase == PhaseOf(c, s, pid)
    && CompletedBefore(h', |h'| - 1, PhaseOf(c, s, pid))
  }

  lemma RowGoesIn(c: Config, s: State, pid: ProcessId, f: Fault)
    requires StartGoesIn(c, s, pid, f)
    ensures StartedAfterCompleted(c, s, pid, f) <==> CompletedNow(s.db.history, PhaseOf(c, s, pid))
  {
    var h, e := s.db.history, PendingRow(PhaseOf(c, s, pid), pid, s.procs[pid]);
    assert forall k :: 0 <= k < |h| ==> (h + [e])[k] == h[k];
    assert Last(h + [e]) == e;
  }

  lemma CompletedSplit(h: seq<PhaseEvent>, phase: string, seen: seq<PhaseEvent>)
    requires seen <= h && (LatestEvent(seen, phase).Some? ==> LatestEvent(seen, phase).value.kind != Completed)
    ensures CompletedNow(h, phase) <==> CompletedBetween(h, |seen|, |h|, phase) || HiddenCompleted(seen, phase)
  {
    HiddenIffNotLatest(seen, phase);
    assert forall k :: 0 <= k < |seen| ==> seen[k] == h[k];
    if CompletedNow(h, phase) {
      var k :| 0 <= k < |h| && h[k].phase == phase && h[k].kind == Completed;
      assert k < |seen| ==> seen[k] == h[k];
    }
    if HiddenCompleted(seen, phase) {
      var k :| 0 <= k < |seen| && seen[k].phase == phase && seen[k].kind == Completed;
      assert h[k] == seen[k];
    }
  }

  lemma StartFollows(c: Config, s: State, pid: ProcessId, f: Fault, seen: seq<PhaseEvent>)
    requires StartGoesIn(c, s, pid, f) && SawIn(c, s, pid, seen)
    ensures StartedAfterCompleted(c, s, pid, f)
       <==> CompletedBetween(s.db.history, |seen|, |s.db.history|, PhaseOf(c, s, pid))
            || HiddenCompleted(seen, PhaseOf(c, s, pid))
  {
    RowGoesIn(c, s, pid, f);
    CompletedSplit(s.db.history, PhaseOf(c, s, pid), seen);
  }

  /** In every run: a STARTED goes in after a COMPLETED of its phase if and only if a COMPLETED went in since the
      process read the latest event, or that read was of a history in which a later row already hid one. */
  lemma RerunIff(c: Config, nulls: nat, ls: seq<Label>, pid: ProcessId, f: Fault)
    requires StartGoesIn(c, Exec(c, Init(nulls), ls), pid, f)
    ensures var s, seen := Exec(c, Init(nulls), ls), Seen(c, nulls, ls, pid);
            StartedAfterCompleted(c, s, pid, f)
            <==> CompletedBetween(s.db.history, |seen|, |s.db.history|, PhaseOf(c, s, pid))
                 || HiddenCompleted(seen, PhaseOf(c, s, pid))
  {
    SawInEveryRun(c, nulls, ls, pid);
    StartFollows(c, Exec(c, Init(nulls), ls), pid, f, Seen(c, nulls, ls, pid));
  }

  // ----- Timely runs

  /** No STARTED of the phase comes after a COMPLETED of it. */
  ghost predicate NoRerun(h: seq<PhaseEvent>, phase: string) {
    forall k :: 0 <= k < |h| && h[k].phase == phase && h[k].kind == Started ==> !CompletedBefore(h, k, phase)
  }

  lemma NoRerunBefore(h: seq<PhaseEvent>, e: PhaseEvent, phase: string)
    requires NoRerun(h + [e], phase)
    ensures NoRerun(h, phase)
    ensures e.phase == phase && e.kind == Started ==> !CompletedNow(h, phase)
  {
    var h' := h + [e];
    assert forall k :: 0 <= k < |h| ==> h[k] == h'[k];
    assert h'[|h|] == e;
    forall k | 0 <= k < |h| && h[k].phase == phase && h[k].kind == Started
      ensures !CompletedBefore(h, k, phase)
    {
      assert !CompletedBefore(h', k, phase);
    }
    assert CompletedBefore(h', |h|, phase) <==> CompletedNow(h, phase);
  }

  ghost predicate LatestTells(h: seq<PhaseEvent>, phase: string) {
    CompletedNow(h, phase) ==> LatestEvent(h, phase).Some? && LatestEvent(h, phase).value.kind == Completed
  }

  /** Has an open attempt, or a rollback to record. */
  predicate Owing(pc: Counter) {
    pc == Executing || pc == Guard || pc == InsertTerminal || pc == RollingBack || pc == InsertRolledBack
  }

  ghost predicate NobodyOwes(c: Config, s: State, phase: string) {
    forall q :: q in s.procs && Owing(s.procs[q].pc) && s.procs[q].idx < |c| ==> c[s.procs[q].idx].name != phase
  }

  /** As long as no phase has been rerun: the latest event of a completed phase is its COMPLETED, and nobody will add
      another. */
  ghost predicate Settled(c: Config, s: State, phase: string) {
    NoRerun(s.db.history, phase) ==>
      LatestTells(s.db.history, phase) && (CompletedNow(s.db.history, phase) ==> NobodyOwes(c, s, phase))
  }

  lemma QuietKeepsSettled(c: Config, s: State, s': State, phase: string)
    requires Settled(c, s, phase) && s'.db.history == s.db.history
    requires forall q :: q in s'.procs && Owing(s'.procs[q].pc) ==>
               q in s.procs && Owing(s.procs[q].pc) && s.procs[q].idx == s'.procs[q].idx
    ensures Settled(c, s', phase)
  {
  }

  lemma NobodyElseOwes(s: State, pid: ProcessId)
    requires Exclusive(s) && pid in s.procs && InRegion(s.procs[pid])
    ensures forall q :: q in s.procs && Owing(s.procs[q].pc) ==> q == pid
  {
    assert forall q :: q in s.procs && Owing(s.procs[q].pc) ==> InRegion(s.procs[q]);
  }

  lemma RowSettles(c: Config, s: State, s': State, pid: ProcessId, p: Process, p': Process, e: PhaseEvent,
                   phase: string)
    requires Settled(c, s, phase) && NoRerun(s.db.history, phase) && Exclusive(s)
    requires pid in s.procs && p == s.procs[pid] && p.idx < |c| && Inserting(p.pc)
    requires e == PendingRow(c[p.idx].name, pid, p)
    requires s'.db.history == s.db.history + [e] && s'.procs == s.procs[pid := p'] && p'.idx == p.idx
    requires Owing(p'.pc) ==> e.kind != Completed
    requires e.phase == phase && e.kind == Started ==> !CompletedNow(s.db.history, phase)
    ensures Settled(c, s', phase)
  {
    RowsAppend(s.db.history, e);
    CompletedAppend(s.db.history, e, phase);
    NobodyElseOwes(s, pid);
  }

  lemma InsertKeepsSettled(c: Config, s: State, pid: ProcessId, p: Process, f: Fault, phase: string)
    requires Settled(c, s, phase) && Exclusive(s)
    requires pid in s.procs && p == s.procs[pid] && p.idx < |c| && Inserting(p.pc)
    ensures Settled(c, InsertStep(c[p.idx], s, pid, p, f), phase)
  {
    var s' := InsertStep(c[p.idx], s, pid, p, f);
    var h, e := s.db.history, PendingRow(c[p.idx].name, pid, p);
    var r := InsertEvent(s.db, e, f).1;
    if s'.db.history == h {
      assert r == Accepted ==> |s'.db.history| == |h| + 1;
      QuietKeepsSettled(c, s, s', phase);
    } else if NoRerun(h + [e], phase) {
      NoRerunBefore(h, e, phase);
      RowSettles(c, s, s', pid, p, AfterInsert(c[p.idx], s.now, p, r), e, phase);
    }
  }

  lemma MovedOwes(c: Config, s: State, pid: ProcessId, p: Process, f: Fault)
    requires p.idx < |c| && !Inserting(p.pc)
    ensures var q := Moved(c, s, pid, p, f); Owing(q.pc) ==> Owing(p.pc) && q.idx == p.idx
  {
  }

  lemma DoKeepsSettled(c: Config, s: State, pid: ProcessId, p: Process, f: Fault, phase: string)
    requires Settled(c, s, phase) && Exclusive(s) && pid in s.procs && p == s.procs[pid] && p.idx < |c|
    ensures Settled(c, DoStep(c, s, pid, p, f), phase)
  {
    if Inserting(p.pc) {
      InsertKeepsSettled(c, s, pid, p, f, phase);
    } else {
      DoMoves(c, s, pid, p, f);
      MovedOwes(c, s, pid, p, f);
      QuietKeepsSettled(c, s, DoStep(c, s, pid, p, f), phase);
    }
  }

  lemma ActionKeepsSettled(c: Config, s: State, pid: ProcessId, a: Action, phase: string)
    requires Settled(c, s, phase) && Exclusive(s) && pid in s.procs && s.procs[pid].idx < |c|
    ensures Settled(c, Apply(c, s, Act(pid, a)), phase)
  {
    if a.Do? {
      DoKeepsSettled(c, s, pid, s.procs[pid], a.fault, phase);
    } else if !a.Checkpoint? {
      OtherActionMoves(c, s, pid, a);
      QuietKeepsSettled(c, s, Apply(c, s, Act(pid, a)), phase);
    }
  }

  lemma StepKeepsSettled(c: Config, s: State, l: Label, phase: string)
    requires Settled(c, s, phase) && Exclusive(s)
    ensures Settled(c, Apply(c, s, l), phase)
  {
    if l.Act? {
      if l.pid in s.procs && s.procs[l.pid].idx < |c| {
        ActionKeepsSettled(c, s, l.pid, l.action, phase);
      } else {
        assert Apply(c, s, l) == s;
      }
    } else {
      QuietKeepsSettled(c, s, Apply(c, s, l), phase);
    }
  }

  lemma {:induction false} SettledInTimelyRuns(c: Config, nulls: nat, ls: seq<Label>, delay: nat, misses: nat,
                                        phase: string)
    requires FitsTtl(delay, misses) && TimelyRun(c, Init(nulls), ls, delay, misses)
    ensures Settled(c, Exec(c, Init(nulls), ls), phase)
  {
    if ls != [] {
      var front := ls[..|ls| - 1];
      SettledInTimelyRuns(c, nulls, front, delay, misses, phase);
      GuardedInTimelyRuns(c, nulls, front, delay, misses);
      StepKeepsSettled(c, Exec(c, Init(nulls), front), Last(ls), phase);
    }
  }

  lemma {:induction false} SeenIsSettled(c: Config, nulls: nat, ls: seq<Label>, pid: ProcessId, delay: nat, misses: nat,
                                         phase: string)
    requires FitsTtl(delay, misses) && TimelyRun(c, Init(nulls), ls, delay, misses)
    ensures var seen := Seen(c, nulls, ls, pid); NoRerun(seen, phase) ==> LatestTells(seen, phase)
  {
    if ls != [] {
      var front := ls[..|ls| - 1];
      SeenIsSettled(c, nulls, front, pid, delay, misses, phase);
      SettledInTimelyRuns(c, nulls, front, delay, misses, phase);
    }
  }

  /** Between AcquireLock and the insert of STARTED. */
  predicate Locked(pc: Counter) {
    pc == ReadMax || pc == InsertStarted
  }

  /** While a process is there, nobody adds a row. */
  ghost predicate HeldIn(s: State, pid: ProcessId, seen: seq<PhaseEvent>, held: seq<PhaseEvent>) {
    pid in s.procs && Locked(s.procs[pid].pc) ==> held == s.db.history && seen <= held
  }

  lemma OnlyAcquireLocks(c: Config, s: State, pid: ProcessId, p: Process, f: Fault)
    requires p.idx < |c|
    ensures var q := Moved(c, s, pid, p, f);
            && (p.pc == ReadLatest || Inserting(p.pc) ==> !Locked(q.pc))
            && (Locked(q.pc) && !Locked(p.pc) ==> (p.pc == TryInsertLock || p.pc == TrySteal) && q.pc == ReadMax)
  {
  }

  lemma OnlyInsertsWrite(c: Config, s: State, pid: ProcessId, p: Process, f: Fault)
    requires p.idx < |c| && !Inserting(p.pc)
    ensures DoStep(c, s, pid, p, f).db.history == s.db.history
  {
  }

  lemma OwnStepKeepsHeld(c: Config, s: State, l: Label, pid: ProcessId, seen: seq<PhaseEvent>, held: seq<PhaseEvent>)
    requires HeldIn(s, pid, seen, held) && seen <= s.db.history
    requires l.Act? && l.pid == pid && pid in s.procs && s.procs[pid].idx < |c|
    ensures HeldIn(Apply(c, s, l), pid, if ReadsLatest(c, s, l, pid) then s.db.history else seen,
                   if Acquires(c, s, l, pid) then s.db.history else held)
  {
    if l.action.Do? {
      OnlyAcquireLocks(c, s, pid, s.procs[pid], l.action.fault);
      if !Inserting(s.procs[pid].pc) {
        OnlyInsertsWrite(c, s, pid, s.procs[pid], l.action.fault);
      }
      DoMoves(c, s, pid, s.procs[pid], l.action.fault);
    } else if !l.action.Checkpoint? {
      OtherActionMoves(c, s, pid, l.action);
    }
  }

  lemma NobodyElseInserts(s: State, pid: ProcessId)
    requires Exclusive(s) && pid in s.procs && Locked(s.procs[pid].pc)
    ensures forall q :: q in s.procs && Inserting(s.procs[q].pc) ==> q == pid
  {
    assert InRegion(s.procs[pid]);
    assert forall q :: q in s.procs && Inserting(s.procs[q].pc) ==> InRegion(s.procs[q]);
  }

  lemma HistoryStays(c: Config, s: State, l: Label, pid: ProcessId)
    requires Exclusive(s) && pid in s.procs && Locked(s.procs[pid].pc)
    requires !(l.Act? && l.pid == pid && s.procs[pid].idx < |c|)
    ensures Apply(c, s, l).db.history == s.db.history
  {
    if l.Act? && l.pid in s.procs && s.procs[l.pid].idx < |c| {
      NobodyElseInserts(s, pid);
      if !l.action.Do? && !l.action.Checkpoint? {
        OtherActionMoves(c, s, l.pid, l.action);
      }
    }
  }

  lemma OtherStepKeepsHeld(c: Config, s: State, l: Label, pid: ProcessId, seen: seq<PhaseEvent>, held: seq<PhaseEvent>)
    requires HeldIn(s, pid, seen, held) && Exclusive(s)
    requires !(l.Act? && l.pid == pid && pid in s.procs && s.procs[pid].idx < |c|)
    ensures HeldIn(Apply(c, s, l), pid, seen, held)
  {
    OthersStay(c, s, l, pid);
    if pid in s.procs && Locked(s.procs[pid].pc) {
      HistoryStays(c, s, l, pid);
    }
  }

  lemma {:induction false} HeldInTimelyRuns(c: Config, nulls: nat, ls: seq<Label>, pid: ProcessId, delay: nat,
                                        misses: nat)
    requires FitsTtl(delay, misses) && TimelyRun(c, Init(nulls), ls, delay, misses)
    ensures HeldIn(Exec(c, Init(nulls), ls), pid, Seen(c, nulls, ls, pid), Held(c, nulls, ls, pid))
  {
    if ls != [] {
      var front, l := ls[..|ls| - 1], Last(ls);
      var s := Exec(c, Init(nulls), front);
      HeldInTimelyRuns(c, nulls, front, pid, delay, misses);
      GuardedInTimelyRuns(c, nulls, front, delay, misses);
      SawInEveryRun(c, nulls, front, pid);
      if l.Act? && l.pid == pid && pid in s.procs && s.procs[pid].idx < |c| {
        OwnStepKeepsHeld(c, s, l, pid, Seen(c, nulls, front, pid), Held(c, nulls, front, pid));
      } else {
        OtherStepKeepsHeld(c, s, l, pid, Seen(c, nulls, front, pid), Held(c, nulls, front, pid));
      }
    }
  }

  lemma NotHidden(h: seq<PhaseEvent>, seen: seq<PhaseEvent>, phase: string)
    requires seen <= h && NoRerun(h, phase) && (NoRerun(seen, phase) ==> LatestTells(seen, phase))
    requires LatestEvent(seen, phase).Some? ==> LatestEvent(seen, phase).value.kind != Completed
    ensures !HiddenCompleted(seen, phase)
  {
    assert forall k :: 0 <= k < |seen| ==> seen[k] == h[k];
    forall k | 0 <= k < |seen| && seen[k].phase == phase && seen[k].kind == Started
      ensures !CompletedBefore(seen, k, phase)
    {
      assert !CompletedBefore(h, k, phase);
    }
    HiddenIffNotLatest(seen, phase);
  }

  /** In a run whose lock excludes: as long as no STARTED of a phase has gone in after a COMPLETED of it, the next one
      does if and only if a COMPLETED went in between its process's read of the latest event and its AcquireLock. */
  lemma FirstRerunIff(c: Config, nulls: nat, ls: seq<Label>, pid: ProcessId, f: Fault, delay: nat, misses: nat)
    requires FitsTtl(delay, misses) && TimelyRun(c, Init(nulls), ls, delay, misses)
    requires StartGoesIn(c, Exec(c, Init(nulls), ls), pid, f)
    requires var s := Exec(c, Init(nulls), ls); NoRerun(s.db.history, PhaseOf(c, s, pid))
    ensures var s, seen, held := Exec(c, Init(nulls), ls), Seen(c, nulls, ls, pid), Held(c, nulls, ls, pid);
            && seen <= held <= s.db.history
            && (StartedAfterCompleted(c, s, pid, f)
                <==> CompletedBetween(s.db.history, |seen|, |held|, PhaseOf(c, s, pid)))
  {
    var s, seen := Exec(c, Init(nulls), ls), Seen(c, nulls, ls, pid);
    RerunIff(c, nulls, ls, pid, f);
    SawInEveryRun(c, nulls, ls, pid);
    HeldInTimelyRuns(c, nulls, ls, pid, delay, misses);
    SeenIsSettled(c, nulls, ls, pid, delay, misses, PhaseOf(c, s, pid));
    NotHidden(s.db.history, seen, PhaseOf(c, s, pid));
  }
}
