/** The lock under a timing hypothesis. A process is in the lock region from the return of AcquireLock to the
    return of runPhase. The ticker starts only once STARTED is in, so what has to fit in the 90 s TTL is the
    start-up delay plus every tick up to the first refresh that succeeds. */
module MutualExclusion {
  import opened Store
  import opened Protocol

  /** The time `n` heartbeat intervals take. */
  function Ticks(n: int): int {
    30_000 * n
  }

  predicate InRegion(p: Process) {
    BeforeStarted(p.pc) || AfterStarted(p.pc)
  }

  /** No process lags: STARTED comes within `delay` of the lock's clock reading, a refresh is tried every 30 s
      after that, and at most `misses` of them fail in a row. */
  ghost predicate Timely(s: State, delay: int, misses: int) {
    forall pid :: pid in s.procs ==>
      var p := s.procs[pid];
      && (BeforeStarted(p.pc) ==> s.now <= p.clock + delay)
      && (AfterStarted(p.pc) ==> s.now <= p.beatAt + Ticks(1) && p.misses <= misses)
  }

  /** The run is timely at every instant. */
  ghost predicate TimelyRun(c: Config, s: State, ls: seq<Label>, delay: int, misses: int)
    decreases |ls|
  {
    Timely(Exec(c, s, ls), delay, misses) && (ls == [] || TimelyRun(c, s, ls[..|ls| - 1], delay, misses))
  }

  predicate FitsTtl(delay: int, misses: int) {
    delay + Ticks(misses + 1) <= LOCK_TTL
  }

  /** The lock row of a process in the region is its own and outlives its next refresh. */
  ghost predicate Holds(lock: Option<LockRow>, pid: ProcessId, p: Process, delay: int) {
    && lock.Some? && lock.value.holder == pid
    && (BeforeStarted(p.pc) ==> lock.value.expiresAt >= p.clock + LOCK_TTL)
    && (AfterStarted(p.pc) ==> lock.value.expiresAt >= p.beatAt + LOCK_TTL - delay - Ticks(p.misses))
  }

  ghost predicate Guarded(s: State, delay: int) {
    forall pid :: pid in s.procs && InRegion(s.procs[pid]) ==> Holds(s.db.lock, pid, s.procs[pid], delay)
  }

  ghost predicate AtMostOne(s: State) {
    forall p, q :: p in s.procs && q in s.procs && InRegion(s.procs[p]) && InRegion(s.procs[q]) ==> p == q
  }

  /** At most one process is in the region; the row is its own and no steal can succeed. */
  ghost predicate Exclusive(s: State) {
    && AtMostOne(s)
    && (forall p :: p in s.procs && InRegion(s.procs[p]) ==>
          s.db.lock.Some? && s.db.lock.value.holder == p && !Expired(s.db.lock.value, s.now))
  }

  lemma GuardedIsExclusive(s: State, delay: int, misses: int)
    requires Guarded(s, delay) && Timely(s, delay, misses) && FitsTtl(delay, misses) && 0 <= misses && 0 <= delay
    ensures Exclusive(s)
  {
    forall pid | pid in s.procs && InRegion(s.procs[pid])
      ensures s.db.lock.Some? && s.db.lock.value.holder == pid && !Expired(s.db.lock.value, s.now)
    {
      assert Holds(s.db.lock, pid, s.procs[pid], delay);
    }
  }

  /** One process moves; nobody else in the region sees the lock row change. */
  lemma MoveKeepsGuarded(s: State, s': State, pid: ProcessId, p': Process, delay: int)
    requires Guarded(s, delay) && s'.procs == s.procs[pid := p']
    requires InRegion(p') ==> Holds(s'.db.lock, pid, p', delay)
    requires s'.db.lock == s.db.lock || forall q :: q in s.procs && q != pid ==> !InRegion(s.procs[q])
    ensures Guarded(s', delay)
  {
    forall q | q in s'.procs && InRegion(s'.procs[q])
      ensures Holds(s'.db.lock, q, s'.procs[q], delay)
    {
      if q != pid {
        assert s'.procs[q] == s.procs[q];
      }
    }
  }

  /** A lock statement that changes the row finds nobody else in the region. */
  lemma LockKeepsGuarded(c: Config, s: State, pid: ProcessId, p: Process, f: Fault, delay: int)
    requires Guarded(s, delay) && Exclusive(s) && pid in s.procs && p == s.procs[pid] && Locking(p.pc)
    ensures Guarded(LockStep(c, s, pid, p, f), delay)
  {
    var (db, r) := LockCall(s.now, s.db, pid, p, f);
    assert p.pc != TryInsertLock && p.pc != TrySteal ==> !InRegion(AfterLock(c, p, r));
    MoveKeepsGuarded(s, LockStep(c, s, pid, p, f), pid, AfterLock(c, p, r), delay);
  }

  lemma InsertKeepsGuarded(pc: PhaseConfig, s: State, pid: ProcessId, p: Process, f: Fault, delay: int, misses: int)
    requires Guarded(s, delay) && Timely(s, delay, misses) && pid in s.procs && p == s.procs[pid] && Inserting(p.pc)
    ensures Guarded(InsertStep(pc, s, pid, p, f), delay)
  {
    var (db, r) := InsertEvent(s.db, PendingRow(pc.name, pid, p), f);
    MoveKeepsGuarded(s, InsertStep(pc, s, pid, p, f), pid, AfterInsert(pc, s.now, p, r), delay);
  }

  lemma ReaderKeepsTimes(c: Config, now: int, db: Tables, p: Process, f: Fault)
    requires p.idx < |c| && Reading(p.pc)
    ensures var q := ReadStep(c, now, db, p, f);
            && (BeforeStarted(q.pc) ==> BeforeStarted(p.pc) && q.clock == p.clock)
            && (AfterStarted(q.pc) ==> AfterStarted(p.pc) && q.beatAt == p.beatAt && q.misses == p.misses)
  {
  }

  lemma ReadKeepsGuarded(c: Config, s: State, pid: ProcessId, p: Process, f: Fault, delay: int)
    requires Guarded(s, delay) && pid in s.procs && p == s.procs[pid] && p.idx < |c| && Reading(p.pc)
    ensures Guarded(Put(s, pid, ReadStep(c, s.now, s.db, p, f)), delay)
  {
    var q := ReadStep(c, s.now, s.db, p, f);
    ReaderKeepsTimes(c, s.now, s.db, p, f);
    MoveKeepsGuarded(s, Put(s, pid, q), pid, q, delay);
  }

  lemma RefreshKeepsGuarded(s: State, pid: ProcessId, p: Process, f: Fault, delay: int, misses: int)
    requires Guarded(s, delay) && Exclusive(s) && Timely(s, delay, misses) && 0 <= delay
    requires pid in s.procs && p == s.procs[pid]
    ensures Guarded(RefreshStep(s, pid, p, f), delay)
  {
    if p.ticker == Refreshing && AfterStarted(p.pc) {
      var s' := RefreshStep(s, pid, p, f);
      MoveKeepsGuarded(s, s', pid, s'.procs[pid], delay);
    }
  }

  /** The remaining actions leave the lock, the clocks and the region alone, or leave the region. */
  lemma OtherKeepsGuarded(c: Config, s: State, pid: ProcessId, a: Action, delay: int)
    requires Guarded(s, delay) && pid in s.procs && !a.Do? && !a.Refresh?
    ensures Guarded(Apply(c, s, Act(pid, a)), delay)
  {
    var s' := Apply(c, s, Act(pid, a));
    assert s.procs == s.procs[pid := s.procs[pid]];
    MoveKeepsGuarded(s, s', pid, s'.procs[pid], delay);
  }

  lemma ApplyKeepsGuarded(c: Config, s: State, l: Label, delay: int, misses: int)
    requires Guarded(s, delay) && Timely(s, delay, misses) && Exclusive(s)
    requires 0 <= misses && 0 <= delay
    ensures Guarded(Apply(c, s, l), delay)
  {
    match l
    case Start(pid, resume) =>
      if pid !in s.procs {
        MoveKeepsGuarded(s, Apply(c, s, l), pid, NewProcess(c, resume), delay);
      }
    case Act(pid, a) =>
      if pid in s.procs && s.procs[pid].idx < |c| {
        var p := s.procs[pid];
        if a.Refresh? {
          RefreshKeepsGuarded(s, pid, p, a.fault, delay, misses);
        } else if !a.Do? {
          OtherKeepsGuarded(c, s, pid, a, delay);
        } else if Reading(p.pc) {
          ReadKeepsGuarded(c, s, pid, p, a.fault, delay);
        } else if Inserting(p.pc) {
          InsertKeepsGuarded(c[p.idx], s, pid, p, a.fault, delay, misses);
        } else if Locking(p.pc) {
          LockKeepsGuarded(c, s, pid, p, a.fault, delay);
        }
      }
    case _ =>
  }

  lemma {:induction false} GuardedInTimelyRuns(c: Config, nulls: nat, ls: seq<Label>, delay: nat, misses: nat)
    requires FitsTtl(delay, misses) && TimelyRun(c, Init(nulls), ls, delay, misses)
    ensures var s := Exec(c, Init(nulls), ls); Guarded(s, delay) && Exclusive(s)
  {
    if ls != [] {
      var s := Exec(c, Init(nulls), ls[..|ls| - 1]);
      GuardedInTimelyRuns(c, nulls, ls[..|ls| - 1], delay, misses);
      ApplyKeepsGuarded(c, s, Last(ls), delay, misses);
    }
    GuardedIsExclusive(Exec(c, Init(nulls), ls), delay, misses);
  }

  /** In a timely run every release deletes the releaser's own row. */
  lemma ReleaseDeletesOwnRow(c: Config, nulls: nat, ls: seq<Label>, delay: nat, misses: nat, pid: ProcessId)
    requires FitsTtl(delay, misses) && TimelyRun(c, Init(nulls), ls, delay, misses)
    requires var s := Exec(c, Init(nulls), ls);
             pid in s.procs && s.procs[pid].pc in {Releasing, AbortRelease}
    ensures var db := Exec(c, Init(nulls), ls).db; db.lock.Some? && db.lock.value.holder == pid
  {
    GuardedInTimelyRuns(c, nulls, ls, delay, misses);
  }
}
