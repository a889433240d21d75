/** internal/runner/runner.go as the imperative code it is: one process's `Run` over the shared tables, with other
    processes moving between any two of its statements. Every statement is shown to be the protocol's next step, so
    what holds of all label sequences holds of this code. */
module RunnerProcess {
  import opened Store
  import opened Transitions
  import opened Protocol
  import opened HistorySafety

  /** Labels that are not a statement of the main thread of `pid`; its heartbeat goroutine does count as foreign. */
  predicate Foreign(pid: ProcessId, l: Label) {
    l.Act? && l.pid == pid ==> l.action.Beat? || l.action.Refresh?
  }

  /** Everything the main thread of a process knows. */
  predicate SameThread(p: Process, q: Process) {
    q == p.(ticker := q.ticker, beatAt := q.beatAt, misses := q.misses)
  }

  lemma ForeignKeepsThread(c: Config, s: State, l: Label, pid: ProcessId)
    requires pid in s.procs && Foreign(pid, l)
    ensures pid in Apply(c, s, l).procs && SameThread(s.procs[pid], Apply(c, s, l).procs[pid])
  {
  }

  /** The process is inside the given attempt of phase i, its heartbeat goroutine where `t` says. */
  predicate Ticking(c: Config, s: State, pid: ProcessId, i: nat, attempt: nat, t: Ticker) {
    && pid in s.procs && i < |c| && AfterStarted(s.procs[pid].pc)
    && s.procs[pid].idx == i && s.procs[pid].attempt == attempt && s.procs[pid].ticker == t
  }

  /** It has left phase i for good. */
  predicate Gone(s: State, pid: ProcessId, i: nat) {
    pid in s.procs && (!Live(s.procs[pid]) || s.procs[pid].idx > i)
  }

  predicate OwnBeat(pid: ProcessId, l: Label) {
    l.Act? && l.pid == pid && (l.action.Beat? || l.action.Refresh?)
  }

  /** Inside the attempt with that ticker, or out of the phase. */
  predicate TickingOrGone(c: Config, p: Process, i: nat, attempt: nat, t: Ticker) {
    || (i < |c| && AfterStarted(p.pc) && p.idx == i && p.attempt == attempt && p.ticker == t)
    || !Live(p) || p.idx > i
  }

  lemma ReaderKeepsTicker(c: Config, now: int, db: Tables, p: Process, f: Fault, i: nat, attempt: nat, t: Ticker)
    requires p.idx < |c| && TickingOrGone(c, p, i, attempt, t) && Reading(p.pc)
    ensures TickingOrGone(c, ReadStep(c, now, db, p, f), i, attempt, t)
  {
  }

  lemma WriterKeepsTicker(c: Config, now: int, p: Process, r: Reply, i: nat, attempt: nat, t: Ticker)
    requires p.idx < |c| && TickingOrGone(c, p, i, attempt, t) && Inserting(p.pc)
    ensures TickingOrGone(c, AfterInsert(c[p.idx], now, p, r), i, attempt, t)
  {
  }

  lemma MovedKeepsTicker(c: Config, s: State, pid: ProcessId, p: Process, f: Fault, i: nat, attempt: nat, t: Ticker)
    requires p.idx < |c| && TickingOrGone(c, p, i, attempt, t)
    ensures TickingOrGone(c, Moved(c, s, pid, p, f), i, attempt, t)
  {
    if Reading(p.pc) {
      ReaderKeepsTicker(c, s.now, s.db, p, f, i, attempt, t);
    } else if Inserting(p.pc) {
      WriterKeepsTicker(c, s.now, p, InsertEvent(s.db, PendingRow(c[p.idx].name, pid, p), f).1, i, attempt, t);
    }
  }

  lemma ActionKeepsTicker(c: Config, s: State, pid: ProcessId, a: Action, i: nat, attempt: nat, t: Ticker)
    requires pid in s.procs && s.procs[pid].idx < |c| && !a.Do? && !a.Beat? && !a.Refresh?
    requires TickingOrGone(c, s.procs[pid], i, attempt, t)
    ensures var t' := Apply(c, s, Act(pid, a)); pid in t'.procs && TickingOrGone(c, t'.procs[pid], i, attempt, t)
  {
  }

  lemma OthersKeepTicker(c: Config, s: State, l: Label, pid: ProcessId, i: nat, attempt: nat, t: Ticker)
    requires !OwnBeat(pid, l) && (Ticking(c, s, pid, i, attempt, t) || Gone(s, pid, i))
    ensures Ticking(c, Apply(c, s, l), pid, i, attempt, t) || Gone(Apply(c, s, l), pid, i)
  {
    assert TickingOrGone(c, s.procs[pid], i, attempt, t);
    if !(l.Act? && l.pid == pid && s.procs[pid].idx < |c|) {
      OthersStay(c, s, l, pid);
    } else if l.action.Do? {
      DoMoves(c, s, pid, s.procs[pid], l.action.fault);
      MovedKeepsTicker(c, s, pid, s.procs[pid], l.action.fault, i, attempt, t);
    } else {
      ActionKeepsTicker(c, s, pid, l.action, i, attempt, t);
    }
  }

  /** How many heartbeats, and how many lock refreshes, a process has sent. */
  function Beats(ls: seq<Label>, pid: ProcessId): nat {
    if ls == [] then 0
    else
      Beats(ls[..|ls| - 1], pid) +
      if Last(ls).Act? && Last(ls).pid == pid && Last(ls).action.Beat? then 1 else 0
  }

  function Refreshes(ls: seq<Label>, pid: ProcessId): nat {
    if ls == [] then 0
    else
      Refreshes(ls[..|ls| - 1], pid) +
      if Last(ls).Act? && Last(ls).pid == pid && Last(ls).action.Refresh? then 1 else 0
  }

  /** The k-th label of the run is a poll of this process on a table without NULL rows. */
  ghost predicate Polls(c: Config, nulls: nat, ls: seq<Label>, k: nat, pid: ProcessId)
    requires k < |ls|
  {
    ls[k].Act? && ls[k].pid == pid && ls[k].action.Work? && Exec(c, Init(nulls), ls[..k]).nulls == 0
  }

  ghost predicate PolledZero(c: Config, nulls: nat, ls: seq<Label>, from: nat, pid: ProcessId) {
    exists k :: from <= k < |ls| && Polls(c, nulls, ls, k, pid)
  }

  lemma PollsStay(c: Config, nulls: nat, ls: seq<Label>, ls': seq<Label>, from: nat, pid: ProcessId)
    requires ls <= ls'
    ensures PolledZero(c, nulls, ls, from, pid) ==> PolledZero(c, nulls, ls', from, pid)
  {
    if k :| from <= k < |ls| && Polls(c, nulls, ls, k, pid) {
      assert ls'[..k] == ls[..k];
      assert Polls(c, nulls, ls', k, pid);
    }
  }

  /** The shared tables, and where every process is. */
  class Database {
    const config: Config
    var now: int
    var history: seq<PhaseEvent>
    var checkpoints: seq<CheckpointRow<int>>
    var heartbeats: seq<HeartbeatRow>
    var lock: Option<LockRow>
    var procs: map<ProcessId, Process>
    var nulls: nat
    ghost const initialNulls: nat
    ghost var trace: seq<Label>

    function Db(): Tables
      reads this
    {
      Tables(history, checkpoints, heartbeats, lock)
    }

    function View(): State
      reads this
    {
      State(now, Db(), procs, nulls)
    }

    /** The tables and processes are what some run of the protocol produces. */
    ghost predicate Valid()
      reads this
    {
      View() == Exec(config, Init(initialNulls), trace)
    }

    constructor (config: Config, nulls: nat)
      ensures Valid() && trace == [] && this.config == config && procs == map[]
    {
      this.config := config;
      now, history, checkpoints, heartbeats, lock := 0, [], [], [], None;
      procs, this.nulls, trace, initialNulls := map[], nulls, [], nulls;
    }

    // ----- Statements of internal/store/mysql_store.go. The fault is whatever the network does.

    method InsertEvent(e: PhaseEvent) returns (r: Reply, f: Fault)
      modifies this`history
      ensures (Db(), r) == Store.InsertEvent(old(Db()), e, f)
      ensures r == DbError <==> f.Lost?
      ensures r == Accepted ==> history == old(history) + [e]
      ensures r == Duplicate ==> history == old(history) && exists x :: x in history && x == e.(writer := x.writer)
    {
      f := *;
      if f == Lost(false) {
        return DbError, f;
      }
      if DuplicateKey(history, e) {
        r := Duplicate;
      } else {
        history := history + [e];
        r := Accepted;
      }
      if f.Lost? {
        r := DbError;
      }
    }

    method InsertLock(holder: ProcessId, clock: int) returns (r: Reply, f: Fault)
      modifies this`lock
      ensures (Db(), r) == Store.InsertLock(old(Db()), holder, clock, f)
      ensures r == DbError <==> f.Lost?
      ensures r == Accepted ==> old(lock).None? && lock == Some(LockRow(holder, clock, clock + 90_000))
      ensures r == Duplicate ==> lock == old(lock) && lock.Some?
    {
      f := *;
      if f == Lost(false) {
        return DbError, f;
      }
      if lock.Some? {
        r := Duplicate;
      } else {
        lock := Some(LockRow(holder, clock, clock + LOCK_TTL));
        r := Accepted;
      }
      if f.Lost? {
        r := DbError;
      }
    }

    method StealLock(holder: ProcessId, clock: int) returns (r: Reply, f: Fault)
      modifies this`lock
      ensures (Db(), r) == Store.StealLock(old(Db()), holder, clock, now, f)
      ensures r == DbError <==> f.Lost?
      ensures r == Accepted ==>
                && old(lock).Some? && old(lock).value.expiresAt < now
                && lock == Some(LockRow(holder, clock, clock + 90_000))
      ensures r == Duplicate ==> lock == old(lock) && (lock.None? || lock.value.expiresAt >= now)
    {
      f := *;
      if f == Lost(false) {
        return DbError, f;
      }
      if lock.Some? && lock.value.expiresAt < now {
        lock := Some(LockRow(holder, clock, clock + LOCK_TTL));
        r := Accepted;
      } else {
        r := Duplicate;
      }
      if f.Lost? {
        r := DbError;
      }
    }

    method ReleaseLock() returns (f: Fault)
      modifies this`lock
      ensures Db() == Store.ReleaseLock(old(Db()), f)
      ensures lock == if f == Lost(false) then old(lock) else None
    {
      f := *;
      if f != Lost(false) {
        lock := None;
      }
    }

    method InsertHeartbeat(pid: ProcessId, phase: string, attempt: nat) returns (f: Fault)
      requires Valid() && pid in procs && procs[pid].idx < |config| && AfterStarted(procs[pid].pc)
      requires procs[pid].ticker == Waiting && phase == config[procs[pid].idx].name && attempt == procs[pid].attempt
      modifies this
      ensures Valid() && trace == old(trace) + [Act(pid, Beat(f))] && pid in procs
      ensures heartbeats == old(heartbeats) + if f == Lost(false) then [] else [HeartbeatRow(phase, attempt, pid)]
      ensures history == old(history) && checkpoints == old(checkpoints) && lock == old(lock) && now == old(now)
      ensures procs == old(procs[pid := procs[pid].(ticker := Refreshing)])
    {
      f := *;
      var p := procs[pid];
      if f != Lost(false) {
        heartbeats := heartbeats + [HeartbeatRow(phase, attempt, pid)];
      }
      procs := procs[pid := p.(ticker := Refreshing)];
      trace := trace + [Act(pid, Beat(f))];
      assert trace[..|trace| - 1] == old(trace);
    }

    method RefreshLock(pid: ProcessId) returns (r: Reply, f: Fault)
      requires Valid() && pid in procs && procs[pid].idx < |config| && AfterStarted(procs[pid].pc)
      requires procs[pid].ticker == Refreshing
      modifies this
      ensures Valid() && trace == old(trace) + [Act(pid, Refresh(f))]
      ensures (Db(), r) == Store.RefreshLock(old(Db()), pid, now, f) && now == old(now)
      ensures r == DbError <==> f.Lost?
      ensures r == Accepted ==>
                && old(lock).Some? && old(lock).value.holder == pid
                && lock == Some(LockRow(pid, old(lock).value.acquiredAt, now + 90_000))
      ensures r == Duplicate ==> lock == old(lock) && (lock.None? || lock.value.holder != pid)
      ensures procs == old(procs)[pid := old(procs)[pid].(
                                   beatAt := now,
                                   ticker := if r == Duplicate then Stopped else Waiting,
                                   misses := if r == Accepted then 0 else old(procs)[pid].misses + 1)]
    {
      f := *;
      var p := procs[pid];
      if f == Lost(false) {
        r := DbError;
      } else if lock.Some? && lock.value.holder == pid {
        lock := Some(lock.value.(expiresAt := now + LOCK_TTL));
        r := if f.Lost? then DbError else Accepted;
      } else {
        r := if f.Lost? then DbError else Duplicate;
      }
      procs := procs[pid := p.(beatAt := now,
                               ticker := if r == Duplicate then Stopped else Waiting,
                               misses := if r == Accepted then 0 else p.misses + 1)];
      trace := trace + [Act(pid, Refresh(f))];
      assert trace[..|trace| - 1] == old(trace);
    }

    // ----- Interleaving

    method Become(s: State)
      modifies this
      ensures View() == s && trace == old(trace)
    {
      now, history, checkpoints, heartbeats, lock :=
        s.now, s.db.history, s.db.checkpoints, s.db.heartbeats, s.db.lock;
      procs, nulls := s.procs, s.nulls;
    }

    /** One label of somebody else. */
    method Step(l: Label)
      requires Valid()
      modifies this
      ensures Valid() && trace == old(trace) + [l] && View() == Apply(config, old(View()), l)
    {
      Become(Apply(config, View(), l));
      trace := trace + [l];
      assert trace[..|trace| - 1] == old(trace);
    }

    /** Any number of labels of anybody but the heartbeat goroutine of `pid`. */
    method Drift(pid: ProcessId, i: nat, attempt: nat, t: Ticker)
      requires Valid() && (Ticking(config, View(), pid, i, attempt, t) || Gone(View(), pid, i))
      modifies this
      ensures Valid() && old(trace) <= trace
      ensures Ticking(config, View(), pid, i, attempt, t) || Gone(View(), pid, i)
      ensures Beats(trace, pid) == old(Beats(trace, pid)) && Refreshes(trace, pid) == old(Refreshes(trace, pid))
    {
      var n: int := *;
      while n > 0
        invariant Valid() && old(trace) <= trace
        invariant Ticking(config, View(), pid, i, attempt, t) || Gone(View(), pid, i)
        invariant Beats(trace, pid) == old(Beats(trace, pid)) && Refreshes(trace, pid) == old(Refreshes(trace, pid))
      {
        n := n - 1;
        var l: Label := *;
        if !OwnBeat(pid, l) {
          OthersKeepTicker(config, View(), l, pid, i, attempt, t);
          ghost var before := trace;
          Step(l);
          assert trace[..|trace| - 1] == before;
        }
      }
    }

    /** Any number of foreign labels. */
    method Interfere(pid: ProcessId)
      requires Valid() && pid in procs
      modifies this
      ensures Valid() && old(trace) <= trace
      ensures pid in procs && SameThread(old(procs[pid]), procs[pid])
    {
      var n: int := *;
      while n > 0
        invariant Valid() && old(trace) <= trace
        invariant pid in procs && SameThread(old(procs[pid]), procs[pid])
      {
        n := n - 1;
        var l: Label := *;
        if Foreign(pid, l) {
          ForeignKeepsThread(config, View(), l, pid);
          Step(l);
        }
      }
    }

    /** The statement just run was the protocol's next one for `pid`. */
    method Advance(before: State, pid: ProcessId, f: Fault)
      requires before == Exec(config, Init(initialNulls), trace) && pid in before.procs
      requires View().(procs := Apply(config, before, Act(pid, Do(f))).procs) == Apply(config, before, Act(pid, Do(f)))
      modifies this`procs, this`trace
      ensures Valid() && trace == old(trace) + [Act(pid, Do(f))] && View() == Apply(config, before, Act(pid, Do(f)))
    {
      procs := Apply(config, before, Act(pid, Do(f))).procs;
      trace := trace + [Act(pid, Do(f))];
      assert trace[..|trace| - 1] == old(trace);
    }
  }

  datatype Verdict = Proceed | Skip | Stop(error: RunError)

  class Runner {
    const store: Database
    const pid: ProcessId
    const resume: bool

    constructor (store: Database, pid: ProcessId, resume: bool)
      ensures this.store == store && this.pid == pid && this.resume == resume
    {
      this.store, this.pid, this.resume := store, pid, resume;
    }

    /** The process is at the given counter of phase `i`. */
    predicate At(i: nat, pc: Counter)
      reads store
    {
      && pid in store.procs
      && i < |store.config|
      && store.procs[pid].idx == i && store.procs[pid].pc == pc
      && store.procs[pid].resume == resume
    }

    /** What runPhase's return value has to agree with: nil moves on, an error ends the run. */
    predicate Done(i: nat, v: Verdict)
      reads store
    {
      && pid in store.procs
      && (v.Stop? ==> store.procs[pid].pc == Returned && store.procs[pid].outcome == Failure(v.error))
      && (!v.Stop? ==>
            var p := store.procs[pid];
            p.idx == i + 1 && p.resume == resume
            && (if i + 1 < |store.config| then p.pc == ReadLatest else p.pc == Returned && p.outcome == Success))
    }

    /** The fields of the process that the local variables of runPhase mirror. */
    function Me(): Process
      requires pid in store.procs
      reads store
    {
      store.procs[pid]
    }

    // ----- One statement each, with others moving before it

    method LatestEvent(i: nat) returns (latest: Option<PhaseEvent>, ok: bool)
      requires store.Valid() && At(i, ReadLatest)
      modifies store
      ensures store.Valid() && old(store.trace) <= store.trace
      ensures if ok then At(i, ReadLock) && Me().latest == latest else Done(i, Stop(StoreError))
    {
      store.Interfere(pid);
      var before := store.View();
      var f: Fault := *;
      latest, ok := Store.LatestEvent(store.history, store.config[i].name), f.NoFault?;
      store.Advance(before, pid, f);
    }

    method GetLock(i: nat, latest: Option<PhaseEvent>) returns (lock: Option<LockRow>, ok: bool)
      requires store.Valid() && At(i, ReadLock) && Me().latest == latest
      modifies store
      ensures store.Valid() && old(store.trace) <= store.trace
      ensures if ok then At(i, Decide) && Me().latest == latest && Me().lock == lock else Done(i, Stop(StoreError))
    {
      store.Interfere(pid);
      var before := store.View();
      var f: Fault := *;
      lock, ok := store.lock, f.NoFault?;
      store.Advance(before, pid, f);
    }

    method CheckState(i: nat, latest: Option<PhaseEvent>, lock: Option<LockRow>) returns (v: Verdict)
      requires store.Valid() && At(i, Decide) && Me().latest == latest && Me().lock == lock
      modifies store
      ensures store.Valid() && old(store.trace) <= store.trace
      ensures if v == Proceed then At(i, ReadClock) else Done(i, v)
    {
      store.Interfere(pid);
      var before := store.View();
      var state := DetermineState(latest, lock, store.now);
      store.Advance(before, pid, NoFault);
      if state == StateCompleted {
        return Skip;
      }
      var refused := CheckStateGate(state, resume, lock);
      return if refused.Some? then Stop(Refused(refused.value)) else Proceed;
    }

    method Clock(i: nat) returns (clock: int)
      requires store.Valid() && At(i, ReadClock)
      modifies store
      ensures store.Valid() && old(store.trace) <= store.trace && At(i, TryInsertLock) && Me().clock == clock
    {
      store.Interfere(pid);
      var before := store.View();
      clock := store.now;
      store.Advance(before, pid, NoFault);
    }

    method InsertLock(i: nat, clock: int) returns (r: Reply)
      requires store.Valid() && At(i, TryInsertLock) && Me().clock == clock
      modifies store
      ensures store.Valid() && old(store.trace) <= store.trace
      ensures match r
              case Accepted =>
                At(i, ReadMax) && Me().clock == clock && store.lock == Some(LockRow(pid, clock, clock + 90_000))
              case Duplicate => At(i, TrySteal) && Me().clock == clock
              case DbError => Done(i, Stop(StoreError))
    {
      store.Interfere(pid);
      var before := store.View();
      var f;
      r, f := store.InsertLock(pid, clock);
      store.Advance(before, pid, f);
    }

    method StealLock(i: nat, clock: int) returns (r: Reply)
      requires store.Valid() && At(i, TrySteal) && Me().clock == clock
      modifies store
      ensures store.Valid() && old(store.trace) <= store.trace
      ensures match r
              case Accepted =>
                At(i, ReadMax) && Me().clock == clock && store.lock == Some(LockRow(pid, clock, clock + 90_000))
              case Duplicate => Done(i, Stop(LockHeld))
              case DbError => Done(i, Stop(StoreError))
    {
      store.Interfere(pid);
      var before := store.View();
      var f;
      r, f := store.StealLock(pid, clock);
      store.Advance(before, pid, f);
    }

    method MaxAttempt(i: nat) returns (max: nat, ok: bool)
      requires store.Valid() && At(i, ReadMax)
      modifies store
      ensures store.Valid() && old(store.trace) <= store.trace
      ensures if !ok then At(i, AbortRelease) && Me().outcome == Failure(StoreError)
              else if KnownPhase(store.config[i].name) then At(i, InsertStarted) && Me().attempt == max + 1
              else At(i, AbortRelease) && Me().outcome == Failure(UnknownPhase)
    {
      store.Interfere(pid);
      var before := store.View();
      var f: Fault := *;
      max, ok := MaxAttemptNumber(store.history, store.config[i].name), f.NoFault?;
      store.Advance(before, pid, f);
    }

    /** The last statement of the run never reached the server. */
    ghost predicate LostLast(trace: seq<Label>) {
      trace != [] && Last(trace) == Act(pid, Do(Lost(false)))
    }

    /** ReleaseLock on the way out, its error ignored. */
    method Abort(i: nat, e: RunError)
      requires store.Valid() && At(i, AbortRelease) && Me().outcome == Failure(e)
      modifies store
      ensures store.Valid() && old(store.trace) <= store.trace && Done(i, Stop(e))
      ensures store.lock.None? || LostLast(store.trace)
    {
      store.Interfere(pid);
      var before := store.View();
      var f := store.ReleaseLock();
      store.Advance(before, pid, f);
    }

    method InsertStartedEvent(i: nat, attempt: nat) returns (r: Reply)
      requires store.Valid() && At(i, InsertStarted) && Me().attempt == attempt
      modifies store
      ensures store.Valid() && old(store.trace) <= store.trace
      ensures if r == Accepted then At(i, Executing) && Me().attempt == attempt && !Me().sawZero
              else At(i, AbortRelease) && Me().outcome == Failure(StartRejected)
      ensures r == Accepted ==>
                store.history != [] && Last(store.history) == PhaseEvent(store.config[i].name, attempt, Started, pid)
    {
      store.Interfere(pid);
      var before := store.View();
      var f;
      r, f := store.InsertEvent(PhaseEvent(store.config[i].name, attempt, Started, pid));
      store.Advance(before, pid, f);
    }

    /** One write, poll or checkpoint of the executor; `zero` if it was a gate's poll that read no NULL row. */
    method Touch(i: nat, attempt: nat) returns (zero: bool)
      requires store.Valid() && At(i, Executing) && Me().attempt == attempt
      modifies store
      ensures store.Valid() && old(store.trace) <= store.trace
      ensures At(i, Executing) && Me().attempt == attempt && Me().sawZero == (old(Me().sawZero) || zero)
      ensures zero ==> PolledZero(store.config, store.initialNulls, store.trace, |old(store.trace)|, pid)
    {
      store.Interfere(pid);
      ghost var before := store.trace;
      var a: Action := *;
      zero := a.Work? && store.config[i].name == "gate" && store.nulls == 0;
      if a.Work? || a.Checkpoint? {
        store.Step(Act(pid, a));
        assert zero ==> Polls(store.config, store.initialNulls, store.trace, |before|, pid) by {
          assert store.trace[..|before|] == before;
        }
      }
    }

    /** The executor runs: any number of its writes and checkpoints, then a result it is free to choose, but for a
        gate's nil, which takes a poll of its own that read no NULL row. */
    method Execute(i: nat, attempt: nat) returns (result: ExecResult)
      requires store.Valid() && At(i, Executing) && Me().attempt == attempt && !Me().sawZero
      modifies store
      ensures store.Valid() && old(store.trace) <= store.trace
      ensures At(i, Guard) && Me().attempt == attempt && Me().result == result
      ensures store.config[i].name == "gate" && result == ExecOk ==>
                PolledZero(store.config, store.initialNulls, store.trace, |old(store.trace)|, pid)
    {
      var n: int := *;
      var passed := false;
      while n > 0
        invariant store.Valid() && old(store.trace) <= store.trace && At(i, Executing) && Me().attempt == attempt
        invariant Me().sawZero == passed
        invariant passed ==> PolledZero(store.config, store.initialNulls, store.trace, |old(store.trace)|, pid)
      {
        n := n - 1;
        ghost var before := store.trace;
        var zero := Touch(i, attempt);
        PollsStay(store.config, store.initialNulls, before, store.trace, |old(store.trace)|, pid);
        passed := passed || zero;
      }
      result := *;
      if store.config[i].name == "gate" && result == ExecOk && !passed {
        result := ExecError;
      }
      ghost var before := store.trace;
      store.Step(Act(pid, Finish(result)));
      PollsStay(store.config, store.initialNulls, before, store.trace, |old(store.trace)|, pid);
    }

    method LatestEventForAttempt(i: nat, attempt: nat, result: ExecResult) returns (existing: Option<PhaseEvent>)
      requires store.Valid() && At(i, Guard) && Me().attempt == attempt && Me().result == result
      modifies store
      ensures store.Valid() && old(store.trace) <= store.trace
      ensures if existing.Some? && existing.value.kind.IsTerminal()
              then Done(i, if result == ExecOk then Skip else Stop(PhaseError(result)))
              else At(i, InsertTerminal) && Me().attempt == attempt && Me().result == result
    {
      store.Interfere(pid);
      var before := store.View();
      var f: Fault := *;
      existing := if f.Lost? then None else Store.LatestEventForAttempt(store.history, store.config[i].name, attempt);
      store.Advance(before, pid, f);
    }

    method InsertTerminalEvent(i: nat, attempt: nat, result: ExecResult) returns (r: Reply)
      requires store.Valid() && At(i, InsertTerminal) && Me().attempt == attempt && Me().result == result
      modifies store
      ensures store.Valid() && old(store.trace) <= store.trace
      ensures if r != Accepted then Done(i, Stop(TerminalRejected))
              else if result == ExecOk then At(i, Releasing)
              else if store.config[i].rollbackOnFailure
              then At(i, RollingBack) && Me().attempt == attempt && Me().result == result
              else Done(i, Stop(PhaseError(result)))
      ensures r == Accepted ==>
                && store.history != [] && Last(store.history).phase == store.config[i].name
                && Last(store.history).attempt == attempt && Last(store.history).writer == pid
                && (Last(store.history).kind == Completed <==> result == ExecOk)
                && (Last(store.history).kind == TimedOut <==> result == GateTimeout)
                && (Last(store.history).kind == Failed <==> result == ExecError)
    {
      store.Interfere(pid);
      var before := store.View();
      var kind := if result == ExecOk then Completed else if result == GateTimeout then TimedOut else Failed;
      var f;
      r, f := store.InsertEvent(PhaseEvent(store.config[i].name, attempt, kind, pid));
      store.Advance(before, pid, f);
    }

    /** The newest row is the ROLLED_BACK of this attempt. */
    ghost predicate RolledBackIsIn(i: nat, attempt: nat)
      requires i < |store.config|
      reads store
    {
      store.history != [] && Last(store.history) == PhaseEvent(store.config[i].name, attempt, RolledBack, pid)
    }

    /** The executor's Rollback: any number of writes to the target. */
    method UndoPhase(i: nat, attempt: nat, result: ExecResult)
      requires store.Valid() && At(i, RollingBack) && Me().attempt == attempt && Me().result == result
      modifies store
      ensures store.Valid() && old(store.trace) <= store.trace
      ensures At(i, RollingBack) && Me().attempt == attempt && Me().result == result
    {
      var n: int := *;
      while n > 0
        invariant store.Valid() && old(store.trace) <= store.trace
        invariant At(i, RollingBack) && Me().attempt == attempt && Me().result == result
      {
        n := n - 1;
        store.Interfere(pid);
        var a: Action := *;
        if a.Work? {
          store.Step(Act(pid, a));
        }
      }
    }

    /** Rollback and its event; the errors of both are only logged. */
    method RollBack(i: nat, attempt: nat, result: ExecResult)
      requires store.Valid() && At(i, RollingBack) && Me().attempt == attempt && Me().result == result
      modifies store
      ensures store.Valid() && old(store.trace) <= store.trace && Done(i, Stop(PhaseError(result)))
      ensures RolledBackIsIn(i, attempt) || LostLast(store.trace)
    {
      UndoPhase(i, attempt, result);
      store.Advance(store.View(), pid, NoFault);
      RecordRollback(i, attempt, result);
    }

    method RecordRollback(i: nat, attempt: nat, result: ExecResult)
      requires store.Valid() && At(i, InsertRolledBack) && Me().attempt == attempt && Me().result == result
      modifies store
      ensures store.Valid() && old(store.trace) <= store.trace && Done(i, Stop(PhaseError(result)))
      ensures RolledBackIsIn(i, attempt) || LostLast(store.trace)
    {
      store.Interfere(pid);
      SafeInEveryRun(store.config, store.initialNulls, store.trace);
      InsertIsNextRow(store.config, store.history, pid, Me());
      var before := store.View();
      var _, f := store.InsertEvent(PhaseEvent(store.config[i].name, attempt, RolledBack, pid));
      store.Advance(before, pid, f);
    }

    method Release(i: nat)
      requires store.Valid() && At(i, Releasing)
      modifies store
      ensures store.Valid() && old(store.trace) <= store.trace && Done(i, Skip)
      ensures store.lock.None? || LostLast(store.trace)
    {
      store.Interfere(pid);
      var before := store.View();
      var f := store.ReleaseLock();
      store.Advance(before, pid, f);
    }

    // ----- The calls of runner.go, in its order

    method AcquireLock(i: nat) returns (r: Reply)
      requires store.Valid() && At(i, ReadClock)
      modifies store
      ensures store.Valid() && old(store.trace) <= store.trace
      ensures if r == Accepted then At(i, ReadMax) else Done(i, Stop(if r == Duplicate then LockHeld else StoreError))
      ensures r == Accepted ==>
                At(i, ReadMax) && store.lock == Some(LockRow(pid, Me().clock, Me().clock + 90_000))
    {
      var clock := Clock(i);
      r := InsertLock(i, clock);
      if r == Duplicate {
        r := StealLock(i, clock);
      }
    }

    /** nil is `Skip`: this phase needs nothing more. */
    method RunPhase(i: nat) returns (v: Verdict)
      requires store.Valid() && At(i, ReadLatest)
      modifies store
      ensures store.Valid() && old(store.trace) <= store.trace
      ensures v != Proceed && Done(i, v)
    {
      v := PassGate(i);
      if v == Proceed {
        v := LockAndRun(i);
      }
    }

    /** Up to the state check: what needs no lock. */
    method PassGate(i: nat) returns (v: Verdict)
      requires store.Valid() && At(i, ReadLatest)
      modifies store
      ensures store.Valid() && old(store.trace) <= store.trace
      ensures if v == Proceed then At(i, ReadClock) else Done(i, v)
    {
      var latest, ok := LatestEvent(i);
      if !ok {
        return Stop(StoreError);
      }
      var lock;
      lock, ok := GetLock(i, latest);
      if !ok {
        return Stop(StoreError);
      }
      v := CheckState(i, latest, lock);
    }

    method LockAndRun(i: nat) returns (v: Verdict)
      requires store.Valid() && At(i, ReadClock)
      modifies store
      ensures store.Valid() && old(store.trace) <= store.trace
      ensures v != Proceed && Done(i, v)
    {
      var r := AcquireLock(i);
      if r != Accepted {
        return Stop(if r == Duplicate then LockHeld else StoreError);
      }
      v := RunLocked(i);
    }

    /** From the attempt number to STARTED; a refusal gives the lock back. */
    method Begin(i: nat) returns (v: Verdict, attempt: nat)
      requires store.Valid() && At(i, ReadMax)
      modifies store
      ensures store.Valid() && old(store.trace) <= store.trace
      ensures if v == Proceed then At(i, Executing) && Me().attempt == attempt && !Me().sawZero
              else v != Skip && Done(i, v) && (store.lock.None? || LostLast(store.trace))
    {
      var max, ok := MaxAttempt(i);
      attempt := max + 1;
      if !ok {
        Abort(i, StoreError);
        v := Stop(StoreError);
      } else if !KnownPhase(store.config[i].name) {
        Abort(i, UnknownPhase);
        v := Stop(UnknownPhase);
      } else {
        v := StartAttempt(i, attempt);
      }
    }

    method StartAttempt(i: nat, attempt: nat) returns (v: Verdict)
      requires store.Valid() && At(i, InsertStarted) && Me().attempt == attempt
      modifies store
      ensures store.Valid() && old(store.trace) <= store.trace
      ensures if v == Proceed then At(i, Executing) && Me().attempt == attempt && !Me().sawZero
              else v != Skip && Done(i, v) && (store.lock.None? || LostLast(store.trace))
    {
      var r := InsertStartedEvent(i, attempt);
      if r != Accepted {
        Abort(i, StartRejected);
        return Stop(StartRejected);
      }
      return Proceed;
    }

    method RunLocked(i: nat) returns (v: Verdict)
      requires store.Valid() && At(i, ReadMax)
      modifies store
      ensures store.Valid() && old(store.trace) <= store.trace
      ensures v != Proceed && Done(i, v)
    {
      var attempt;
      v, attempt := Begin(i);
      if v == Proceed {
        var result := Execute(i, attempt);
        v := Conclude(i, attempt, result);
      }
    }

    method Conclude(i: nat, attempt: nat, result: ExecResult) returns (v: Verdict)
      requires store.Valid() && At(i, Guard) && Me().attempt == attempt && Me().result == result
      modifies store
      ensures store.Valid() && old(store.trace) <= store.trace
      ensures v != Proceed && Done(i, v)
    {
      var existing := LatestEventForAttempt(i, attempt, result);
      if existing.Some? && existing.value.kind.IsTerminal() {
        return if result == ExecOk then Skip else Stop(PhaseError(result));
      }
      v := Record(i, attempt, result);
    }

    method Record(i: nat, attempt: nat, result: ExecResult) returns (v: Verdict)
      requires store.Valid() && At(i, InsertTerminal) && Me().attempt == attempt && Me().result == result
      modifies store
      ensures store.Valid() && old(store.trace) <= store.trace
      ensures v != Proceed && Done(i, v)
      ensures v == Skip ==> store.lock.None? || LostLast(store.trace)
      ensures v.Stop? && v.error.PhaseError? && store.config[i].rollbackOnFailure ==>
                RolledBackIsIn(i, attempt) || LostLast(store.trace)
    {
      var r := InsertTerminalEvent(i, attempt, result);
      if r != Accepted {
        return Stop(TerminalRejected);
      }
      if result != ExecOk {
        if store.config[i].rollbackOnFailure {
          RollBack(i, attempt, result);
        }
        return Stop(PhaseError(result));
      }
      Release(i);
      return Skip;
    }

    /** `Run`: the phases in order, the first error ends it; nil means every phase has a COMPLETED row. */
    method Run() returns (error: Option<RunError>)
      requires store.Valid() && pid !in store.procs
      modifies store
      ensures store.Valid() && Safe(store.config, store.View()) && old(store.trace) <= store.trace
      ensures pid in store.procs && !Live(store.procs[pid])
      ensures store.procs[pid].outcome == if error.Some? then Failure(error.value) else Success
      ensures error.None? ==> PrefixCompleted(store.config, store.history, |store.config|)
    {
      store.Step(Start(pid, resume));
      var i := 0;
      while i < |store.config|
        invariant store.Valid() && old(store.trace) <= store.trace && i <= |store.config| && pid in store.procs
        invariant if i < |store.config| then At(i, ReadLatest)
                  else store.procs[pid].pc == Returned && store.procs[pid].outcome == Success
      {
        var v := RunPhase(i);
        if v.Stop? {
          SafeInEveryRun(store.config, store.initialNulls, store.trace);
          return Some(v.error);
        }
        i := i + 1;
      }
      SafeInEveryRun(store.config, store.initialNulls, store.trace);
      return None;
    }

    /** `RunHeartbeat` for a number of ticks: every one sends a heartbeat and then a refresh, whatever becomes of them,
        unless the phase has ended; it stops early only then, or for a lost lock, and a lock is lost only if its row is
        not the process's own. */
    method RunHeartbeat(i: nat, attempt: nat, ticks: nat) returns (lost: bool, sent: nat)
      requires store.Valid()
      requires Ticking(store.config, store.View(), pid, i, attempt, Waiting) || Gone(store.View(), pid, i)
      modifies store
      ensures store.Valid() && old(store.trace) <= store.trace
      ensures Refreshes(store.trace, pid) == old(Refreshes(store.trace, pid)) + sent
      ensures sent <= Beats(store.trace, pid) - old(Beats(store.trace, pid)) <= sent + 1
      ensures lost || sent == ticks || Gone(store.View(), pid, i)
      ensures lost ==> Ticking(store.config, store.View(), pid, i, attempt, Stopped)
                       && (store.lock.None? || store.lock.value.holder != pid)
    {
      sent := 0;
      while sent < ticks
        invariant store.Valid() && old(store.trace) <= store.trace && sent <= ticks
        invariant Ticking(store.config, store.View(), pid, i, attempt, Waiting) || Gone(store.View(), pid, i)
        invariant Refreshes(store.trace, pid) == old(Refreshes(store.trace, pid)) + sent
        invariant Beats(store.trace, pid) == old(Beats(store.trace, pid)) + sent
      {
        store.Drift(pid, i, attempt, Waiting);
        if Gone(store.View(), pid, i) {
          return false, sent;
        }
        var r := Tick(i, attempt);
        if r.None? {
          return false, sent;
        }
        sent := sent + 1;
        if r == Some(Duplicate) {
          return true, sent;
        }
      }
      return false, sent;
    }

    method SendHeartbeat(i: nat, attempt: nat)
      requires store.Valid() && Ticking(store.config, store.View(), pid, i, attempt, Waiting)
      modifies store
      ensures store.Valid() && old(store.trace) <= store.trace
      ensures Ticking(store.config, store.View(), pid, i, attempt, Refreshing)
      ensures Beats(store.trace, pid) == old(Beats(store.trace, pid)) + 1
      ensures Refreshes(store.trace, pid) == old(Refreshes(store.trace, pid))
    {
      ghost var before := store.trace;
      var f := store.InsertHeartbeat(pid, store.config[i].name, attempt);
      assert store.trace[..|store.trace| - 1] == before;
    }

    method SendRefresh(i: nat, attempt: nat) returns (r: Reply)
      requires store.Valid() && Ticking(store.config, store.View(), pid, i, attempt, Refreshing)
      modifies store
      ensures store.Valid() && old(store.trace) <= store.trace
      ensures Beats(store.trace, pid) == old(Beats(store.trace, pid))
      ensures Refreshes(store.trace, pid) == old(Refreshes(store.trace, pid)) + 1
      ensures Ticking(store.config, store.View(), pid, i, attempt, if r == Duplicate then Stopped else Waiting)
      ensures r == Duplicate ==> store.lock.None? || store.lock.value.holder != pid
    {
      ghost var before := store.trace;
      var f;
      r, f := store.RefreshLock(pid);
      assert store.trace[..|store.trace| - 1] == before;
    }

    /** One tick; None if the phase ended between the two statements. */
    method Tick(i: nat, attempt: nat) returns (r: Option<Reply>)
      requires store.Valid() && Ticking(store.config, store.View(), pid, i, attempt, Waiting)
      modifies store
      ensures store.Valid() && old(store.trace) <= store.trace
      ensures Beats(store.trace, pid) == old(Beats(store.trace, pid)) + 1
      ensures Refreshes(store.trace, pid) == old(Refreshes(store.trace, pid)) + if r.Some? then 1 else 0
      ensures match r
              case None => Gone(store.View(), pid, i)
              case Some(Duplicate) => Ticking(store.config, store.View(), pid, i, attempt, Stopped)
                                      && (store.lock.None? || store.lock.value.holder != pid)
              case Some(_) => Ticking(store.config, store.View(), pid, i, attempt, Waiting)
    {
      SendHeartbeat(i, attempt);
      store.Drift(pid, i, attempt, Refreshing);
      if Gone(store.View(), pid, i) {
        return None;
      }
      var reply := SendRefresh(i, attempt);
      return Some(reply);
    }
  }
}
