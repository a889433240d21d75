/** No history that runs can produce wedges a migration: with the lock free, a new `Run` left alone skips the
    completed prefix and starts the first phase that is not completed. */
module Recovery {
  import opened Store
  import opened Transitions
  import opened Protocol
  import opened HistorySafety

  /** One process takes n steps and nobody else moves. */
  function Solo(c: Config, s: State, pid: ProcessId, n: nat): State
    decreases n
  {
    if n == 0 then s else Solo(c, Apply(c, s, Next(pid)), pid, n - 1)
  }

  function Repeat(pid: ProcessId, n: nat): seq<Label> {
    if n == 0 then [] else [Next(pid)] + Repeat(pid, n - 1)
  }

  lemma {:induction false} SoloIsRun(c: Config, s: State, pid: ProcessId, n: nat)
    ensures Solo(c, s, pid, n) == Exec(c, s, Repeat(pid, n))
    decreases n
  {
    if n != 0 {
      ExecConcat(c, s, [Next(pid)], Repeat(pid, n - 1));
      ExecOne(c, s, Next(pid));
      SoloIsRun(c, Apply(c, s, Next(pid)), pid, n - 1);
    }
  }

  /** Left alone, the process takes s to t. */
  ghost predicate Leads(c: Config, s: State, pid: ProcessId, t: State) {
    exists n: nat :: Solo(c, s, pid, n) == t
  }

  lemma {:induction false} SoloAdds(c: Config, s: State, pid: ProcessId, m: nat, n: nat)
    ensures Solo(c, s, pid, m + n) == Solo(c, Solo(c, s, pid, m), pid, n)
    decreases m
  {
    if m != 0 {
      SoloAdds(c, Apply(c, s, Next(pid)), pid, m - 1, n);
    }
  }

  lemma Then(c: Config, s: State, pid: ProcessId, t: State, u: State)
    requires Leads(c, s, pid, t) && Leads(c, t, pid, u)
    ensures Leads(c, s, pid, u)
  {
    var m: nat :| Solo(c, s, pid, m) == t;
    var n: nat :| Solo(c, t, pid, n) == u;
    SoloAdds(c, s, pid, m, n);
  }

  lemma Once(c: Config, s: State, pid: ProcessId)
    ensures Leads(c, s, pid, s) && Leads(c, s, pid, Apply(c, s, Next(pid)))
  {
    assert Solo(c, s, pid, 0) == s;
    assert Solo(c, Apply(c, s, Next(pid)), pid, 0) == Apply(c, s, Next(pid));
    assert Solo(c, s, pid, 1) == Apply(c, s, Next(pid));
  }

  lemma OneStep(c: Config, s: State, pid: ProcessId, p: Process, q: Process)
    requires p.idx < |c| && Reading(p.pc) && q == ReadStep(c, s.now, s.db, p, NoFault)
    ensures Leads(c, Put(s, pid, p), pid, Put(s, pid, q))
  {
    assert Put(Put(s, pid, p), pid, q) == Put(s, pid, q);
    Once(c, Put(s, pid, p), pid);
  }

  predicate LockFree(s: State) {
    s.db.lock.None? || Expired(s.db.lock.value, s.now)
  }

  function FirstIncomplete(c: Config, h: seq<PhaseEvent>, i: nat): (k: nat)
    requires i <= |c|
    ensures i <= k <= |c|
    decreases |c| - i
  {
    if i < |c| && LatestEvent(h, c[i].name).Some? && LatestEvent(h, c[i].name).value.kind == Completed
    then FirstIncomplete(c, h, i + 1) else i
  }

  /** A process that has just entered phase i. */
  predicate Entering(c: Config, p: Process, i: nat) {
    p.idx == i < |c| && p.pc == ReadLatest && p.outcome == Unfinished
  }

  /** ... once it has read the latest event and the lock. */
  function Informed(s: State, name: string, p: Process): Process {
    p.(latest := LatestEvent(s.db.history, name), lock := s.db.lock, pc := Decide)
  }

  /** Latest event, lock, decision. */
  lemma DecideOnce(c: Config, s: State, pid: ProcessId, p: Process)
    requires Entering(c, p, p.idx)
    ensures Leads(c, Put(s, pid, p), pid, Put(s, pid, DecideStep(c, Informed(s, c[p.idx].name, p), s.now)))
  {
    var name := c[p.idx].name;
    var p1 := p.(latest := LatestEvent(s.db.history, name), pc := ReadLock);
    var p2 := Informed(s, name, p);
    OneStep(c, s, pid, p, p1);
    OneStep(c, s, pid, p1, p2);
    OneStep(c, s, pid, p2, DecideStep(c, p2, s.now));
    Then(c, Put(s, pid, p), pid, Put(s, pid, p1), Put(s, pid, p2));
    Then(c, Put(s, pid, p), pid, Put(s, pid, p2), Put(s, pid, DecideStep(c, p2, s.now)));
  }

  /** Completed phases are skipped without touching a table. */
  lemma SkipCompleted(c: Config, s: State, pid: ProcessId, p: Process) returns (q: Process)
    requires Entering(c, p, p.idx)
    ensures Leads(c, Put(s, pid, p), pid, Put(s, pid, q)) && q.resume == p.resume
    ensures var k := FirstIncomplete(c, s.db.history, p.idx);
            if k < |c| then Entering(c, q, k) else q.idx == |c| && q.outcome == Success
    decreases |c| - p.idx
  {
    if FirstIncomplete(c, s.db.history, p.idx) == p.idx {
      q := p;
      Once(c, Put(s, pid, p), pid);
    } else {
      DecideOnce(c, s, pid, p);
      q := Informed(s, c[p.idx].name, p).NextPhase(c);
      if p.idx + 1 < |c| {
        var r := SkipCompleted(c, s, pid, q);
        Then(c, Put(s, pid, p), pid, Put(s, pid, q), Put(s, pid, r));
        q := r;
      }
    }
  }

  /** The state check lets the process through when the lock is free. */
  predicate Admits(latest: Option<PhaseEvent>, resume: bool) {
    resume || latest.None? || latest.value.kind == RolledBack || latest.value.kind == Skipped
  }

  lemma AttemptIsFresh(c: Config, h: seq<PhaseEvent>, name: string, pid: ProcessId)
    requires HistoryOk(c, h)
    ensures !DuplicateKey(h, PhaseEvent(name, MaxAttemptNumber(h, name) + 1, Started, pid))
  {
    DuplicateIffRow(h, PhaseEvent(name, MaxAttemptNumber(h, name) + 1, Started, pid));
  }

  /** The state once STARTED is in. */
  function Begun(c: Config, s: State, pid: ProcessId, p: Process): State
    requires p.idx < |c|
  {
    var a := MaxAttemptNumber(s.db.history, c[p.idx].name) + 1;
    Put(s.(db := s.db.(lock := Some(LockRow(pid, s.now, s.now + LOCK_TTL)),
                       history := s.db.history + [PhaseEvent(c[p.idx].name, a, Started, pid)])),
        pid, p.(clock := s.now, attempt := a, pc := Executing, sawZero := false,
                ticker := Waiting, beatAt := s.now, misses := 0))
  }

  function Held(s: State, pid: ProcessId): State {
    s.(db := s.db.(lock := Some(LockRow(pid, s.now, s.now + LOCK_TTL))))
  }

  /** AcquireLock: the INSERT, and one more statement when a stale row must be stolen. */
  lemma AcquireFree(c: Config, s: State, pid: ProcessId, p: Process)
    requires p.idx < |c| && p.pc == TryInsertLock && p.clock == s.now && LockFree(s)
    ensures Leads(c, Put(s, pid, p), pid, Put(Held(s, pid), pid, p.(pc := ReadMax)))
  {
    Once(c, Put(s, pid, p), pid);
    if s.db.lock.Some? {
      var q := p.(pc := TrySteal);
      assert Apply(c, Put(s, pid, p), Next(pid)) == Put(s, pid, q);
      Once(c, Put(s, pid, q), pid);
      assert Apply(c, Put(s, pid, q), Next(pid)) == Put(Held(s, pid), pid, p.(pc := ReadMax));
      Then(c, Put(s, pid, p), pid, Put(s, pid, q), Put(Held(s, pid), pid, p.(pc := ReadMax)));
    }
  }

  lemma InsertFresh(c: Config, s: State, pid: ProcessId, p: Process)
    requires HistoryOk(c, s.db.history) && p.idx < |c| && p.pc == InsertStarted && p.clock == s.now
    requires p.attempt == MaxAttemptNumber(s.db.history, c[p.idx].name) + 1
    ensures Leads(c, Put(Held(s, pid), pid, p), pid, Begun(c, s, pid, p))
  {
    AttemptIsFresh(c, s.db.history, c[p.idx].name, pid);
    Once(c, Put(Held(s, pid), pid, p), pid);
    assert Apply(c, Put(Held(s, pid), pid, p), Next(pid)) == Begun(c, s, pid, p);
  }

  /** From ReadClock to Execute. */
  lemma AcquireAndBegin(c: Config, s: State, pid: ProcessId, p: Process)
    requires HistoryOk(c, s.db.history) && LockFree(s) && p.idx < |c| && KnownPhase(c[p.idx].name) && p.pc == ReadClock
    ensures Leads(c, Put(s, pid, p), pid, Begun(c, s, pid, p))
  {
    var p1 := p.(clock := s.now, pc := TryInsertLock);
    var p2 := p1.(pc := ReadMax);
    var p3 := p2.(attempt := MaxAttemptNumber(s.db.history, c[p.idx].name) + 1, pc := InsertStarted);
    OneStep(c, s, pid, p, p1);
    AcquireFree(c, s, pid, p1);
    OneStep(c, Held(s, pid), pid, p2, p3);
    InsertFresh(c, s, pid, p3);
    Then(c, Put(s, pid, p), pid, Put(s, pid, p1), Put(Held(s, pid), pid, p2));
    Then(c, Put(s, pid, p), pid, Put(Held(s, pid), pid, p2), Put(Held(s, pid), pid, p3));
    Then(c, Put(s, pid, p), pid, Put(Held(s, pid), pid, p3), Begun(c, s, pid, p));
  }

  lemma BegunForgetsPc(c: Config, s: State, pid: ProcessId, p: Process, pc: Counter)
    requires p.idx < |c|
    ensures Begun(c, s, pid, p.(pc := pc)) == Begun(c, s, pid, p)
  {
  }

  lemma PassesCheck(c: Config, p: Process, now: int)
    requires p.idx < |c| && (p.lock.None? || Expired(p.lock.value, now)) && Admits(p.latest, p.resume)
    requires p.latest.Some? ==> p.latest.value.kind != Completed
    ensures DecideStep(c, p, now) == p.(pc := ReadClock)
  {
  }

  lemma BeginPhase(c: Config, s: State, pid: ProcessId, p: Process)
    requires HistoryOk(c, s.db.history) && LockFree(s) && Entering(c, p, p.idx) && KnownPhase(c[p.idx].name)
    requires var latest := LatestEvent(s.db.history, c[p.idx].name);
             Admits(latest, p.resume) && !(latest.Some? && latest.value.kind == Completed)
    ensures Leads(c, Put(s, pid, p), pid, Begun(c, s, pid, Informed(s, c[p.idx].name, p)))
  {
    var p0 := Informed(s, c[p.idx].name, p);
    var p1 := p0.(pc := ReadClock);
    DecideOnce(c, s, pid, p);
    PassesCheck(c, p0, s.now);
    AcquireAndBegin(c, s, pid, p1);
    BegunForgetsPc(c, s, pid, p0, ReadClock);
    Then(c, Put(s, pid, p), pid, Put(s, pid, p1), Begun(c, s, pid, p1));
  }

  /** Where a new run left alone must end: all phases completed and success; or the next STARTED of the first phase
      that is not, and its Execute; or, without resume mode, the advice to use resume and nothing changed. */
  ghost predicate Recovered(c: Config, s: State, s': State, pid: ProcessId, resume: bool) {
    var h := s.db.history;
    var k := FirstIncomplete(c, h, 0);
    && pid in s'.procs
    && (k == |c| ==> s'.procs[pid].outcome == Success && s'.db == s.db)
    && (k < |c| && Admits(LatestEvent(h, c[k].name), resume) ==>
          && s'.procs[pid].pc == Executing && s'.procs[pid].idx == k
          && s'.db.history == h + [PhaseEvent(c[k].name, MaxAttemptNumber(h, c[k].name) + 1, Started, pid)]
          && s'.db.lock.Some? && s'.db.lock.value.holder == pid)
    && (k < |c| && !Admits(LatestEvent(h, c[k].name), resume) ==>
          s'.procs[pid].outcome == Failure(Refused(RequiresResume)) && s'.db == s.db)
  }

  lemma {:induction false} FirstIncompleteStays(c: Config, h: seq<PhaseEvent>, i: nat)
    requires i <= |c|
    ensures FirstIncomplete(c, h, FirstIncomplete(c, h, i)) == FirstIncomplete(c, h, i)
    ensures var k := FirstIncomplete(c, h, i);
            k < |c| ==> !(LatestEvent(h, c[k].name).Some? && LatestEvent(h, c[k].name).value.kind == Completed)
    decreases |c| - i
  {
    if FirstIncomplete(c, h, i) != i {
      FirstIncompleteStays(c, h, i + 1);
    }
  }

  lemma FinishAlone(c: Config, s: State, pid: ProcessId, q: Process) returns (t: State)
    requires HistoryOk(c, s.db.history) && LockFree(s)
    requires Entering(c, q, q.idx) && KnownPhase(c[q.idx].name) && q.idx == FirstIncomplete(c, s.db.history, 0)
    ensures Leads(c, Put(s, pid, q), pid, t) && Recovered(c, s, t, pid, q.resume)
  {
    FirstIncompleteStays(c, s.db.history, 0);
    if Admits(LatestEvent(s.db.history, c[q.idx].name), q.resume) {
      BeginPhase(c, s, pid, q);
      t := Begun(c, s, pid, Informed(s, c[q.idx].name, q));
    } else {
      DecideOnce(c, s, pid, q);
      t := Put(s, pid, DecideStep(c, Informed(s, c[q.idx].name, q), s.now));
    }
  }

  lemma RunAlone(c: Config, s: State, pid: ProcessId, resume: bool) returns (t: State)
    requires c != [] && HistoryOk(c, s.db.history) && LockFree(s)
    requires forall i :: 0 <= i < |c| ==> KnownPhase(c[i].name)
    ensures Leads(c, Put(s, pid, NewProcess(c, resume)), pid, t) && Recovered(c, s, t, pid, resume)
  {
    var q := SkipCompleted(c, s, pid, NewProcess(c, resume));
    t := Put(s, pid, q);
    if q.idx < |c| {
      t := FinishAlone(c, s, pid, q);
      Then(c, Put(s, pid, NewProcess(c, resume)), pid, Put(s, pid, q), t);
    }
  }

  /** No reachable state whose lock is absent or expired is wedged. */
  lemma {:induction false} NoWedge(c: Config, nulls: nat, ls: seq<Label>, pid: ProcessId, resume: bool)
    requires c != [] && forall i :: 0 <= i < |c| ==> KnownPhase(c[i].name)
    requires pid !in Exec(c, Init(nulls), ls).procs && LockFree(Exec(c, Init(nulls), ls))
    ensures exists n: nat ::
              Recovered(c, Exec(c, Init(nulls), ls), Exec(c, Init(nulls), ls + [Start(pid, resume)] + Repeat(pid, n)),
                        pid, resume)
  {
    var s := Exec(c, Init(nulls), ls);
    SafeInEveryRun(c, nulls, ls);
    var t := RunAlone(c, s, pid, resume);
    var n: nat :| Solo(c, Put(s, pid, NewProcess(c, resume)), pid, n) == t;
    ExecConcat(c, Init(nulls), ls, [Start(pid, resume)]);
    ExecOne(c, s, Start(pid, resume));
    ExecConcat(c, Init(nulls), ls + [Start(pid, resume)], Repeat(pid, n));
    SoloIsRun(c, Put(s, pid, NewProcess(c, resume)), pid, n);
    assert Exec(c, Init(nulls), ls + [Start(pid, resume)] + Repeat(pid, n)) == t;
  }
}
