/** The life of the lock row over all interleavings, in milliseconds and without the constant that the statements
    share: who changes it and how, how long it can last, and who can leave one behind. */
module Lease {
  import opened Store
  import opened Protocol
  import opened HistorySafety
  import opened MutualExclusion
  import opened Recovery

  // ----- How the row changes

  /** A new row, with 90 s from the clock its process read before AcquireLock. */
  predicate IsGrant(lock: Option<LockRow>, pid: ProcessId, clock: int) {
    lock == Some(LockRow(pid, clock, clock + 90_000))
  }

  /** The only ways: an INSERT when there is no row, the conditional UPDATE of an expired one, a refresh of its own row
      by a process inside its phase, and the DELETE. */
  ghost predicate RowChanges(s: State, l: Label, lock: Option<LockRow>) {
    var before := s.db.lock;
    || lock == before
    || (l.Act? && l.pid in s.procs
        && var p := s.procs[l.pid];
           || (p.pc == TryInsertLock && before.None? && IsGrant(lock, l.pid, p.clock))
           || (p.pc == TrySteal && before.Some? && before.value.expiresAt < s.now && IsGrant(lock, l.pid, p.clock))
           || (l.action.Refresh? && AfterStarted(p.pc) && before.Some? && before.value.holder == l.pid
               && lock == Some(LockRow(l.pid, before.value.acquiredAt, s.now + 90_000)))
           || (p.pc in {Releasing, AbortRelease} && lock.None?))
  }

  lemma StepChangesRow(c: Config, s: State, l: Label)
    ensures RowChanges(s, l, Apply(c, s, l).db.lock)
  {
  }

  /** A refresh that finds its own row leaves it 90 s from then, and its other columns alone; one that does not changes
      nothing and ends the ticker. */
  lemma RefreshGrants(c: Config, s: State, pid: ProcessId)
    requires pid in s.procs && s.procs[pid].idx < |c|
    requires s.procs[pid].ticker == Refreshing && AfterStarted(s.procs[pid].pc)
    ensures var s' := Apply(c, s, Act(pid, Refresh(NoFault)));
            if s.db.lock.Some? && s.db.lock.value.holder == pid then
              && s'.db.lock == Some(LockRow(pid, s.db.lock.value.acquiredAt, s.now + 90_000))
              && s'.procs[pid].ticker == Waiting && s'.procs[pid].misses == 0
            else s'.db.lock == s.db.lock && s'.procs[pid].ticker == Stopped
  {
  }

  // ----- How long it lasts

  /** No row outlasts the present by more than 90 s. */
  ghost predicate ShortLived(s: State) {
    && (s.db.lock.Some? ==>
          s.db.lock.value.acquiredAt + 90_000 <= s.db.lock.value.expiresAt <= s.now + 90_000)
    && (forall q :: q in s.procs ==> s.procs[q].clock <= s.now)
  }

  lemma ReaderKeepsClock(c: Config, now: int, db: Tables, p: Process, f: Fault)
    requires p.idx < |c| && Reading(p.pc) && p.clock <= now
    ensures ReadStep(c, now, db, p, f).clock <= now
  {
  }

  lemma ActionKeepsClock(c: Config, s: State, pid: ProcessId, a: Action)
    requires pid in s.procs && s.procs[pid].idx < |c| && s.procs[pid].clock <= s.now
    ensures var s' := Apply(c, s, Act(pid, a)); pid in s'.procs && s'.procs[pid].clock <= s.now == s'.now
  {
    if a.Do? && Reading(s.procs[pid].pc) {
      ReaderKeepsClock(c, s.now, s.db, s.procs[pid], a.fault);
    }
  }

  lemma StepKeepsClocks(c: Config, s: State, l: Label)
    requires 0 <= s.now && forall q :: q in s.procs ==> s.procs[q].clock <= s.now
    ensures s.now <= Apply(c, s, l).now
    ensures forall q :: q in Apply(c, s, l).procs ==> Apply(c, s, l).procs[q].clock <= Apply(c, s, l).now
  {
    forall q | q in Apply(c, s, l).procs
      ensures Apply(c, s, l).procs[q].clock <= Apply(c, s, l).now
    {
      if l.Act? && l.pid == q && q in s.procs && s.procs[q].idx < |c| {
        ActionKeepsClock(c, s, q, l.action);
      } else {
        OthersStay(c, s, l, q);
      }
    }
  }

  lemma {:induction false} ShortLivedInEveryRun(c: Config, nulls: nat, ls: seq<Label>)
    ensures var s := Exec(c, Init(nulls), ls); 0 <= s.now && ShortLived(s)
  {
    if ls != [] {
      var s := Exec(c, Init(nulls), ls[..|ls| - 1]);
      ShortLivedInEveryRun(c, nulls, ls[..|ls| - 1]);
      StepChangesRow(c, s, Last(ls));
      StepKeepsClocks(c, s, Last(ls));
    }
  }

  // ----- A holder that has fallen silent

  /** The label is a statement of process h on its lock row that could renew it. */
  ghost predicate Renews(s: State, l: Label, h: ProcessId) {
    && l.Act? && l.pid == h && h in s.procs
    && (l.action.Refresh? || (l.action.Do? && s.procs[h].pc in {TryInsertLock, TrySteal}))
  }

  /** Process h, dead or alive, neither acquires nor refreshes the lock. */
  ghost predicate Silent(c: Config, s: State, ls: seq<Label>, h: ProcessId)
    decreases |ls|
  {
    ls == [] || (!Renews(Exec(c, s, ls[..|ls| - 1]), Last(ls), h) && Silent(c, s, ls[..|ls| - 1], h))
  }

  lemma {:induction false} SilentRowStays(c: Config, s: State, ls: seq<Label>, h: ProcessId)
    requires Silent(c, s, ls, h)
    ensures var lock := Exec(c, s, ls).db.lock; lock.Some? && lock.value.holder == h ==> lock == s.db.lock
  {
    if ls != [] {
      SilentRowStays(c, s, ls[..|ls| - 1], h);
      StepChangesRow(c, Exec(c, s, ls[..|ls| - 1]), Last(ls));
    }
  }

  lemma {:induction false} DeadIsSilent(c: Config, s: State, ls: seq<Label>, h: ProcessId)
    requires h in s.procs && !Live(s.procs[h])
    ensures var s' := Exec(c, s, ls); h in s'.procs && !Live(s'.procs[h])
    ensures var lock := Exec(c, s, ls).db.lock; lock.Some? && lock.value.holder == h ==> lock == s.db.lock
  {
    if ls != [] {
      DeadIsSilent(c, s, ls[..|ls| - 1], h);
      DeadStayDead(c, Exec(c, s, ls[..|ls| - 1]), Last(ls), h);
      StepChangesRow(c, Exec(c, s, ls[..|ls| - 1]), Last(ls));
    }
  }

  lemma ExpiresWhenSilent(c: Config, nulls: nat, ls: seq<Label>, more: seq<Label>, h: ProcessId)
    requires Exec(c, Init(nulls), ls + more).now > Exec(c, Init(nulls), ls).now + 90_000
    requires Silent(c, Exec(c, Init(nulls), ls), more, h)
             || (h in Exec(c, Init(nulls), ls).procs && !Live(Exec(c, Init(nulls), ls).procs[h]))
    ensures var s := Exec(c, Init(nulls), ls + more);
            s.db.lock.Some? && s.db.lock.value.holder == h ==> s.db.lock.value.expiresAt < s.now
  {
    var s := Exec(c, Init(nulls), ls);
    ExecConcat(c, Init(nulls), ls, more);
    ShortLivedInEveryRun(c, nulls, ls);
    if Silent(c, s, more, h) {
      SilentRowStays(c, s, more, h);
    } else {
      DeadIsSilent(c, s, more, h);
    }
  }

  /** Once 90 s have passed since a holder last acquired or refreshed the lock, or since it died, and nobody else holds
      the lock, a resume left alone is admitted and gets it: it ends with every phase skipped, or at Execute of the
      first phase that is not completed. */
  lemma ResumeTakesOver(c: Config, nulls: nat, ls: seq<Label>, more: seq<Label>, h: ProcessId, pid: ProcessId)
    requires c != [] && forall i :: 0 <= i < |c| ==> KnownPhase(c[i].name)
    requires Exec(c, Init(nulls), ls + more).now > Exec(c, Init(nulls), ls).now + 90_000
    requires Silent(c, Exec(c, Init(nulls), ls), more, h)
             || (h in Exec(c, Init(nulls), ls).procs && !Live(Exec(c, Init(nulls), ls).procs[h]))
    requires var s := Exec(c, Init(nulls), ls + more);
             pid !in s.procs && (s.db.lock.Some? ==> s.db.lock.value.holder == h)
    ensures exists n: nat ::
              Recovered(c, Exec(c, Init(nulls), ls + more),
                        Exec(c, Init(nulls), ls + more + [Start(pid, true)] + Repeat(pid, n)), pid, true)
  {
    ExpiresWhenSilent(c, nulls, ls, more, h);
    NoWedge(c, nulls, ls + more, pid, true);
  }

  // ----- Who leaves a row behind

  /** Inside the lock region, crashed, or returned with an error that keeps the lock: of the store, of the terminal
      insert, or of the phase. */
  predicate MayHold(p: Process) {
    || InRegion(p) || p.pc == Crashed
    || (p.pc == Returned && p.outcome.Failure?
        && (p.outcome.error.StoreError? || p.outcome.error.TerminalRejected? || p.outcome.error.PhaseError?))
  }

  ghost predicate HolderMayHold(s: State) {
    s.db.lock.Some? ==> s.db.lock.value.holder in s.procs && MayHold(s.procs[s.db.lock.value.holder])
  }

  /** The label is a DELETE of the lock row that never reaches the server. */
  ghost predicate LosesRelease(s: State, l: Label) {
    l.Act? && l.action == Do(Lost(false)) && l.pid in s.procs && s.procs[l.pid].pc in {Releasing, AbortRelease}
  }

  ghost predicate ReleasesArrive(c: Config, s: State, ls: seq<Label>)
    decreases |ls|
  {
    ls == [] || (!LosesRelease(Exec(c, s, ls[..|ls| - 1]), Last(ls)) && ReleasesArrive(c, s, ls[..|ls| - 1]))
  }

  lemma ReleaseDeletes(c: Config, s: State, pid: ProcessId, f: Fault)
    requires pid in s.procs && s.procs[pid].idx < |c| && s.procs[pid].pc in {Releasing, AbortRelease}
    ensures f != Lost(false) ==> Apply(c, s, Act(pid, Do(f))).db.lock.None?
  {
  }

  lemma ReaderMayHold(c: Config, now: int, db: Tables, p: Process, f: Fault)
    requires p.idx < |c| && Reading(p.pc) && p.pc != Guard && MayHold(p)
    ensures MayHold(ReadStep(c, now, db, p, f))
  {
  }

  lemma WriterMayHold(pc: PhaseConfig, now: int, p: Process, r: Reply)
    requires Inserting(p.pc)
    ensures MayHold(AfterInsert(pc, now, p, r))
  {
  }

  lemma MovedMayHold(c: Config, s: State, pid: ProcessId, f: Fault)
    requires Safe(c, s) && pid in s.procs && s.procs[pid].idx < |c|
    requires MayHold(s.procs[pid]) && s.procs[pid].pc !in {Releasing, AbortRelease}
    ensures MayHold(Moved(c, s, pid, s.procs[pid], f))
  {
    var p := s.procs[pid];
    if p.pc == Guard {
      GuardSeesStarted(c, s.db.history, pid, p);
    } else if Reading(p.pc) {
      ReaderMayHold(c, s.now, s.db, p, f);
    } else if Inserting(p.pc) {
      WriterMayHold(c[p.idx], s.now, p, InsertEvent(s.db, PendingRow(c[p.idx].name, pid, p), f).1);
    }
  }

  lemma AcquirerMayHold(c: Config, s: State, pid: ProcessId, f: Fault)
    requires pid in s.procs && s.procs[pid].idx < |c| && s.procs[pid].pc in {TryInsertLock, TrySteal}
    requires Apply(c, s, Act(pid, Do(f))).db.lock != s.db.lock
    ensures MayHold(Moved(c, s, pid, s.procs[pid], f))
  {
  }

  lemma HolderStepMayHold(c: Config, s: State, l: Label, h: ProcessId)
    requires Safe(c, s) && !LosesRelease(s, l) && h in s.procs
    requires var lock := Apply(c, s, l).db.lock; lock.Some? && lock.value.holder == h
    requires MayHold(s.procs[h]) || Apply(c, s, l).db.lock != s.db.lock
    ensures h in Apply(c, s, l).procs && MayHold(Apply(c, s, l).procs[h])
  {
    StepChangesRow(c, s, l);
    if !(l.Act? && l.pid == h && s.procs[h].idx < |c|) {
      OthersStay(c, s, l, h);
    } else if l.action.Do? {
      DoMoves(c, s, h, s.procs[h], l.action.fault);
      if s.procs[h].pc in {Releasing, AbortRelease} {
        ReleaseDeletes(c, s, h, l.action.fault);
      } else if MayHold(s.procs[h]) {
        MovedMayHold(c, s, h, l.action.fault);
      } else {
        AcquirerMayHold(c, s, h, l.action.fault);
      }
    } else if !l.action.Checkpoint? {
      OtherActionMoves(c, s, h, l.action);
    }
  }

  /** As long as every DELETE that is sent arrives, the lock row is of a process in the region, or of one that crashed
      or failed there. A run that returned nil, or was refused before or while it started, leaves no row behind. */
  lemma {:induction false} OnlyFailuresLeaveTheLock(c: Config, nulls: nat, ls: seq<Label>)
    requires ReleasesArrive(c, Init(nulls), ls)
    ensures HolderMayHold(Exec(c, Init(nulls), ls))
  {
    if ls != [] {
      var s := Exec(c, Init(nulls), ls[..|ls| - 1]);
      OnlyFailuresLeaveTheLock(c, nulls, ls[..|ls| - 1]);
      SafeInEveryRun(c, nulls, ls[..|ls| - 1]);
      StepChangesRow(c, s, Last(ls));
      var lock := Exec(c, Init(nulls), ls).db.lock;
      if lock.Some? {
        HolderStepMayHold(c, s, Last(ls), lock.value.holder);
      }
    }
  }
}
