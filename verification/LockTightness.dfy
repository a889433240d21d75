/** The bound of MutualExclusion is exact: past it there is a timely run with two holders. */
module LockTightness {
  import opened Store
  import opened Transitions
  import opened Protocol
  import opened MutualExclusion

  ghost predicate TimelyTo(ls: seq<Label>, s: State, delay: int, misses: int) {
    Exec(OnePhase(), Init(0), ls) == s && TimelyRun(OnePhase(), Init(0), ls, delay, misses)
  }

  /** Some timely run ends in s. */
  ghost predicate Reached(s: State, delay: int, misses: int) {
    exists ls :: TimelyTo(ls, s, delay, misses)
  }

  lemma Extend(s: State, l: Label, delay: int, misses: int)
    requires Reached(s, delay, misses) && Timely(Apply(OnePhase(), s, l), delay, misses)
    ensures Reached(Apply(OnePhase(), s, l), delay, misses)
  {
    var ls :| TimelyTo(ls, s, delay, misses);
    assert (ls + [l])[..|ls|] == ls;
    assert TimelyTo(ls + [l], Apply(OnePhase(), s, l), delay, misses);
  }

  /** A read of a process outside the region. */
  lemma ReadOnce(s: State, pid: ProcessId, p: Process, q: Process, delay: nat, misses: nat)
    requires Reached(Put(s, pid, p), delay, misses)
    requires p.idx == 0 && Reading(p.pc) && q == ReadStep(OnePhase(), s.now, s.db, p, NoFault) && !InRegion(q)
    ensures Reached(Put(s, pid, q), delay, misses)
  {
    assert Put(Put(s, pid, p), pid, q) == Put(s, pid, q);
    assert forall r :: r in s.procs && r != pid ==> Put(s, pid, p).procs[r] == s.procs[r];
    assert Timely(Put(s, pid, p), delay, misses) by {
      var ls :| TimelyTo(ls, Put(s, pid, p), delay, misses);
    }
    Extend(Put(s, pid, p), Next(pid), delay, misses);
  }

  function KnowsLatest(s: State): Process {
    NewProcess(OnePhase(), true).(latest := LatestEvent(s.db.history, "expand"), pc := ReadLock)
  }

  function KnowsLock(s: State): Process {
    KnowsLatest(s).(lock := s.db.lock, pc := Decide)
  }

  function AtLock(s: State): Process {
    KnowsLock(s).(clock := s.now, pc := TryInsertLock)
  }

  lemma ApproachSteps(s: State)
    requires var state := DetermineState(LatestEvent(s.db.history, "expand"), s.db.lock, s.now);
             state == Pending || state == Orphaned
    ensures ReadStep(OnePhase(), s.now, s.db, NewProcess(OnePhase(), true), NoFault) == KnowsLatest(s)
    ensures ReadStep(OnePhase(), s.now, s.db, KnowsLatest(s), NoFault) == KnowsLock(s)
    ensures ReadStep(OnePhase(), s.now, s.db, KnowsLock(s), NoFault) == KnowsLock(s).(pc := ReadClock)
    ensures ReadStep(OnePhase(), s.now, s.db, KnowsLock(s).(pc := ReadClock), NoFault) == AtLock(s)
  {
  }

  lemma ApproachStart(s: State, pid: ProcessId, delay: nat, misses: nat)
    requires Reached(s, delay, misses) && pid !in s.procs
    ensures Timely(s, delay, misses) && Reached(Put(s, pid, NewProcess(OnePhase(), true)), delay, misses)
  {
    var ls :| TimelyTo(ls, s, delay, misses);
    Extend(s, Start(pid, true), delay, misses);
  }

  lemma ApproachReads(s: State, pid: ProcessId, delay: nat, misses: nat)
    requires Reached(Put(s, pid, NewProcess(OnePhase(), true)), delay, misses)
    requires var state := DetermineState(LatestEvent(s.db.history, "expand"), s.db.lock, s.now);
             state == Pending || state == Orphaned
    ensures Reached(Put(s, pid, KnowsLock(s)), delay, misses)
  {
    ApproachSteps(s);
    ReadOnce(s, pid, NewProcess(OnePhase(), true), KnowsLatest(s), delay, misses);
    ReadOnce(s, pid, KnowsLatest(s), KnowsLock(s), delay, misses);
  }

  /** A new process gets as far as AcquireLock. */
  lemma Approach(s: State, pid: ProcessId, delay: nat, misses: nat)
    requires Reached(s, delay, misses) && pid !in s.procs
    requires var state := DetermineState(LatestEvent(s.db.history, "expand"), s.db.lock, s.now);
             state == Pending || state == Orphaned
    ensures Reached(Put(s, pid, AtLock(s)), delay, misses)
  {
    ApproachStart(s, pid, delay, misses);
    ApproachReads(s, pid, delay, misses);
    ApproachSteps(s);
    ReadOnce(s, pid, KnowsLock(s), KnowsLock(s).(pc := ReadClock), delay, misses);
    ReadOnce(s, pid, KnowsLock(s).(pc := ReadClock), AtLock(s), delay, misses);
  }

  /** Where process 0 is just before it inserts STARTED. */
  function Poised(now: int): State {
    State(now, Tables([], [], [], Some(LockRow(0, 0, LOCK_TTL))),
          map[0 := Process(true, 0, InsertStarted, None, None, 0, 1, ExecOk, Unfinished, false, Stopped, 0, 0)], 0)
  }

  lemma Acquire(delay: nat, misses: nat)
    ensures Reached(Poised(0), delay, misses)
  {
    assert TimelyTo([], Init(0), delay, misses);
    Approach(Init(0), 0, delay, misses);
    var s := Put(Init(0), 0, AtLock(Init(0)));
    var s' := Poised(0).(procs := map[0 := Poised(0).procs[0].(attempt := 0, pc := ReadMax)]);
    assert Apply(OnePhase(), s, Next(0)) == s';
    Extend(s, Next(0), delay, misses);
    assert Apply(OnePhase(), s', Next(0)) == Poised(0);
    Extend(s', Next(0), delay, misses);
  }

  /** Process 0 after `k` refreshes that all failed, each at the end of its interval. */
  function Holder(delay: nat, k: nat): Process {
    Process(true, 0, Executing, None, None, 0, 1, ExecOk, Unfinished, false, Waiting, delay + Ticks(k), k)
  }

  function Missed(delay: nat, k: nat, beats: seq<HeartbeatRow>): State {
    State(delay + Ticks(k),
          Tables([PhaseEvent("expand", 1, Started, 0)], [], beats, Some(LockRow(0, 0, LOCK_TTL))),
          map[0 := Holder(delay, k)], 0)
  }

  /** The state after the tick, and after the heartbeat row that precedes the refresh. */
  function Ticked(delay: nat, k: nat, beats: seq<HeartbeatRow>): State {
    Missed(delay, k, beats).(now := delay + Ticks(k + 1))
  }

  function Beaten(delay: nat, k: nat, beats: seq<HeartbeatRow>): State {
    Put(Ticked(delay, k, beats + [HeartbeatRow("expand", 1, 0)]), 0, Holder(delay, k).(ticker := Refreshing))
  }

  lemma MissSteps(delay: nat, k: nat, beats: seq<HeartbeatRow>, misses: nat)
    requires k < misses
    ensures Apply(OnePhase(), Missed(delay, k, beats), Tick(30_000)) == Ticked(delay, k, beats)
    ensures Apply(OnePhase(), Ticked(delay, k, beats), Act(0, Beat(NoFault))) == Beaten(delay, k, beats)
    ensures Timely(Ticked(delay, k, beats), delay, misses) && Timely(Beaten(delay, k, beats), delay, misses)
  {
  }

  lemma MissRefresh(delay: nat, k: nat, beats: seq<HeartbeatRow>, misses: nat)
    requires k < misses
    ensures var s := Missed(delay, k + 1, beats + [HeartbeatRow("expand", 1, 0)]);
            Apply(OnePhase(), Beaten(delay, k, beats), Act(0, Refresh(Lost(false)))) == s && Timely(s, delay, misses)
  {
  }

  lemma MissOnce(delay: nat, k: nat, beats: seq<HeartbeatRow>, misses: nat)
    requires k < misses && Reached(Missed(delay, k, beats), delay, misses)
    ensures Reached(Missed(delay, k + 1, beats + [HeartbeatRow("expand", 1, 0)]), delay, misses)
  {
    MissSteps(delay, k, beats, misses);
    MissRefresh(delay, k, beats, misses);
    Extend(Missed(delay, k, beats), Tick(30_000), delay, misses);
    Extend(Ticked(delay, k, beats), Act(0, Beat(NoFault)), delay, misses);
    Extend(Beaten(delay, k, beats), Act(0, Refresh(Lost(false))), delay, misses);
  }

  lemma FirstBeat(delay: nat, misses: nat)
    ensures Apply(OnePhase(), Poised(0), Tick(delay)) == Poised(delay)
    ensures Apply(OnePhase(), Poised(delay), Next(0)) == Missed(delay, 0, [])
    ensures Timely(Poised(delay), delay, misses) && Timely(Missed(delay, 0, []), delay, misses)
  {
  }

  lemma StartBeating(delay: nat, misses: nat)
    requires Reached(Poised(0), delay, misses)
    ensures Reached(Missed(delay, 0, []), delay, misses)
  {
    FirstBeat(delay, misses);
    Extend(Poised(0), Tick(delay), delay, misses);
    Extend(Poised(delay), Next(0), delay, misses);
  }

  lemma MissThem(delay: nat, k: nat, misses: nat) returns (beats: seq<HeartbeatRow>)
    requires k <= misses
    ensures Reached(Missed(delay, k, beats), delay, misses)
  {
    if k == 0 {
      Acquire(delay, misses);
      StartBeating(delay, misses);
      beats := [];
    } else {
      beats := MissThem(delay, k - 1, misses);
      MissOnce(delay, k - 1, beats, misses);
      beats := beats + [HeartbeatRow("expand", 1, 0)];
    }
  }

  /** What the thief does once it is at AcquireLock: a duplicate key, then the conditional UPDATE. */
  function Stolen(s: State): State {
    Put(s.(db := s.db.(lock := Some(LockRow(1, s.now, s.now + LOCK_TTL)))), 1, AtLock(s).(pc := ReadMax))
  }

  lemma StealSteps(s: State)
    requires 1 !in s.procs && s.db.lock.Some? && Expired(s.db.lock.value, s.now)
    ensures Apply(OnePhase(), Put(s, 1, AtLock(s)), Next(1)) == Put(s, 1, AtLock(s).(pc := TrySteal))
    ensures Apply(OnePhase(), Put(s, 1, AtLock(s).(pc := TrySteal)), Next(1)) == Stolen(s)
  {
  }

  ghost predicate BothIn(s: State) {
    0 in s.procs && 1 in s.procs && InRegion(s.procs[0]) && InRegion(s.procs[1])
  }

  /** The row has expired while its holder still runs; a second process steals it. */
  lemma Steal(s: State, delay: nat, misses: nat)
    requires Reached(s, delay, misses) && Timely(s, delay, misses)
    requires s.procs.Keys == {0} && s.procs[0].pc == Executing
    requires s.db.history == [PhaseEvent("expand", 1, Started, 0)]
    requires s.db.lock.Some? && Expired(s.db.lock.value, s.now)
    ensures Reached(Stolen(s), delay, misses)
    ensures BothIn(Stolen(s))
  {
    Approach(s, 1, delay, misses);
    StealSteps(s);
    Extend(Put(s, 1, AtLock(s)), Next(1), delay, misses);
    Extend(Put(s, 1, AtLock(s).(pc := TrySteal)), Next(1), delay, misses);
  }

  lemma TwoHolders(delay: nat, misses: nat) returns (ls: seq<Label>)
    requires !FitsTtl(delay, misses)
    ensures TimelyRun(OnePhase(), Init(0), ls, delay, misses) && BothIn(Exec(OnePhase(), Init(0), ls))
  {
    var beats := MissThem(delay, misses, misses);
    var s := Missed(delay, misses, beats);
    Extend(s, Tick(30_000), delay, misses);
    Steal(s.(now := s.now + 30_000), delay, misses);
    ls :| TimelyTo(ls, Stolen(s.(now := s.now + 30_000)), delay, misses);
  }

  /** In every timely run, of every migration, at most one process is between AcquireLock and its return, with the lock
      row its own and alive, exactly when start-up and the ticks up to the first successful refresh fit in the TTL. Two
      misses in a row are survived only with no start-up delay. */
  lemma ExclusiveIffFits(delay: nat, misses: nat)
    ensures delay + 30_000 * (misses + 1) <= 90_000
       <==> forall c: Config, nulls: nat, ls: seq<Label> ::
              TimelyRun(c, Init(nulls), ls, delay, misses) ==> AtMostOne(Exec(c, Init(nulls), ls))
    ensures delay + 30_000 * (misses + 1) <= 90_000
       <==> forall c: Config, nulls: nat, ls: seq<Label> ::
              TimelyRun(c, Init(nulls), ls, delay, misses) ==> Exclusive(Exec(c, Init(nulls), ls))
    ensures FitsTtl(delay, 2) <==> delay == 0
  {
    if FitsTtl(delay, misses) {
      forall c: Config, nulls: nat, ls: seq<Label> | TimelyRun(c, Init(nulls), ls, delay, misses)
        ensures Exclusive(Exec(c, Init(nulls), ls))
      {
        GuardedInTimelyRuns(c, nulls, ls, delay, misses);
      }
    } else {
      var ls := TwoHolders(delay, misses);
      assert TimelyRun(OnePhase(), Init(0), ls, delay, misses) && !AtMostOne(Exec(OnePhase(), Init(0), ls));
    }
  }
}
