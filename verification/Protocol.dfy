/** internal/runner/runner.go and heartbeat.go as a state machine: any number of processes, each inside its own
    `Run`, take turns one store statement at a time over the same tables. An interleaving is a sequence of labels;
    a label that is not enabled changes nothing, so every sequence of labels is a run. */
module Protocol {
  import opened Store
  import opened Transitions

  datatype PhaseConfig = PhaseConfig(name: string, rollbackOnFailure: bool)

  type Config = seq<PhaseConfig>

  /** The names for which BuildSingleExecutor returns an executor. */
  predicate KnownPhase(name: string) {
    name in {"expand", "backfill", "gate", "contract"}
  }

  datatype ExecResult = ExecOk | GateTimeout | ExecError

  datatype RunError =
    | StoreError
    | Refused(reason: GateError)
    | LockHeld
    | UnknownPhase
    | StartRejected
    | TerminalRejected
    | PhaseError(result: ExecResult)

  datatype RunOutcome = Unfinished | Success | Failure(error: RunError)

  /** Where a process is inside `runPhase`: the statement it is about to run. */
  datatype Counter =
    | ReadLatest
    | ReadLock
    | Decide
    | ReadClock
    | TryInsertLock
    | TrySteal
    | ReadMax
    | InsertStarted
    | Executing
    | Guard
    | InsertTerminal
    | RollingBack
    | InsertRolledBack
    | Releasing
    | AbortRelease
    | Returned
    | Crashed

  /** The heartbeat goroutine: waiting for a tick, or between its INSERT and its lock refresh. */
  datatype Ticker = Stopped | Waiting | Refreshing

  datatype Process = Process(
    resume: bool,
    idx: nat,                     // index of the phase being run
    pc: Counter,
    latest: Option<PhaseEvent>,   // local variables of runPhase
    lock: Option<LockRow>,
    clock: int,
    attempt: nat,
    result: ExecResult,
    outcome: RunOutcome,          // what Run has returned or is about to return
    sawZero: bool,                // the gate's poll has read the expected value
    ticker: Ticker,
    beatAt: int,                  // when the ticker was started or last tried a refresh
    misses: nat)                  // refreshes failed in a row
  {
    /** runPhase returns nil: Run goes on to the next phase or returns nil. */
    function NextPhase(c: Config): Process {
      this.(idx := idx + 1, ticker := Stopped,
            pc := if idx + 1 < |c| then ReadLatest else Returned,
            outcome := if idx + 1 < |c| then Unfinished else Success)
    }

    function Fail(e: RunError): Process {
      this.(pc := Returned, ticker := Stopped, outcome := Failure(e))
    }
  }

  /** `nulls` counts the rows the migration still has to fill. */
  datatype State = State(now: int, db: Tables, procs: map<ProcessId, Process>, nulls: nat)

  /** What one process can do next. */
  datatype Action =
    | Do(fault: Fault)                        // the next statement of runPhase
    | Finish(result: ExecResult)              // Execute returns
    | Work(n: nat)                            // the executor touches the target table
    | Checkpoint(payload: int, fault: Fault)  // the executor inserts a checkpoint
    | Beat(fault: Fault)                      // the ticker fires: INSERT heartbeat
    | Refresh(fault: Fault)                   // and then the lock refresh
    | Crash

  datatype Label =
    | Start(pid: ProcessId, resume: bool)
    | Act(pid: ProcessId, action: Action)
    | Tick(d: nat)
    | Gc
    | Outside(n: nat)                         // another client writes to the target table

  function Init(nulls: nat): State {
    State(0, Tables([], [], [], None), map[], nulls)
  }

  function NewProcess(c: Config, resume: bool): Process {
    Process(resume, 0, if c == [] then Returned else ReadLatest, None, None, 0, 0, ExecOk,
            if c == [] then Success else Unfinished, false, Stopped, 0, 0)
  }

  function Put(s: State, pid: ProcessId, p: Process): State {
    s.(procs := s.procs[pid := p])
  }

  predicate Live(p: Process) {
    p.pc != Returned && p.pc != Crashed
  }

  /** Between the read of the latest event and the state check. */
  predicate Deciding(pc: Counter) {
    pc == ReadLock || pc == Decide
  }

  /** Between the return of AcquireLock and the insert of STARTED. */
  predicate BeforeStarted(pc: Counter) {
    pc == ReadMax || pc == InsertStarted || pc == AbortRelease
  }

  /** Between the insert of STARTED and the return of runPhase: the heartbeat goroutine's lifetime. */
  predicate AfterStarted(pc: Counter) {
    || pc == Executing || pc == Guard || pc == InsertTerminal
    || pc == RollingBack || pc == InsertRolledBack || pc == Releasing
  }

  function TerminalKind(r: ExecResult): EventType {
    match r
    case ExecOk => Completed
    case GateTimeout => TimedOut
    case ExecError => Failed
  }

  // ----- One statement of runPhase

  predicate Reading(pc: Counter) {
    pc == ReadLatest || pc == ReadLock || pc == Decide || pc == ReadClock || pc == ReadMax || pc == Guard
    || pc == RollingBack
  }

  predicate Inserting(pc: Counter) {
    pc == InsertStarted || pc == InsertTerminal || pc == InsertRolledBack
  }

  predicate Locking(pc: Counter) {
    pc == TryInsertLock || pc == TrySteal || pc == Releasing || pc == AbortRelease
  }

  function DecideStep(c: Config, p: Process, now: int): Process {
    var state := DetermineState(p.latest, p.lock, now);
    if state == StateCompleted then p.NextPhase(c)
    else
      match CheckStateGate(state, p.resume, p.lock)
      case Some(e) => p.Fail(Refused(e))
      case None => p.(pc := ReadClock)
  }

  function MaxStep(name: string, h: seq<PhaseEvent>, p: Process, f: Fault): Process {
    if f.Lost? then p.(pc := AbortRelease, outcome := Failure(StoreError))
    else
      var q := p.(attempt := MaxAttemptNumber(h, name) + 1);
      if KnownPhase(name) then q.(pc := InsertStarted)
      else q.(pc := AbortRelease, outcome := Failure(UnknownPhase))
  }

  /** The terminal guard; a failed check is only logged. */
  function GuardStep(c: Config, name: string, h: seq<PhaseEvent>, p: Process, f: Fault): Process {
    var existing := if f.Lost? then None else LatestEventForAttempt(h, name, p.attempt);
    if existing.Some? && existing.value.kind.IsTerminal() then
      if p.result == ExecOk then p.NextPhase(c) else p.Fail(PhaseError(p.result))
    else p.(pc := InsertTerminal)
  }

  /** Statements that write nothing. */
  function ReadStep(c: Config, now: int, db: Tables, p: Process, f: Fault): Process
    requires p.idx < |c| && Reading(p.pc)
  {
    var name := c[p.idx].name;
    match p.pc
    case ReadLatest =>
      if f.Lost? then p.Fail(StoreError) else p.(latest := LatestEvent(db.history, name), pc := ReadLock)
    case ReadLock => if f.Lost? then p.Fail(StoreError) else p.(lock := db.lock, pc := Decide)
    case Decide => DecideStep(c, p, now)
    case ReadClock => p.(clock := now, pc := TryInsertLock)
    case ReadMax => MaxStep(name, db.history, p, f)
    case Guard => GuardStep(c, name, db.history, p, f)
    case RollingBack => p.(pc := InsertRolledBack)  // an error of Rollback is only logged
  }

  /** The row a process at an inserting counter is about to write. */
  function PendingRow(name: string, pid: ProcessId, p: Process): PhaseEvent
    requires Inserting(p.pc)
  {
    var kind := match p.pc
                case InsertStarted => Started
                case InsertTerminal => TerminalKind(p.result)
                case InsertRolledBack => RolledBack;
    PhaseEvent(name, p.attempt, kind, pid)
  }

  function AfterInsert(pc: PhaseConfig, now: int, p: Process, r: Reply): Process
    requires Inserting(p.pc)
  {
    match p.pc
    case InsertStarted =>
      if r == Accepted then p.(pc := Executing, sawZero := false, ticker := Waiting, beatAt := now, misses := 0)
      else p.(pc := AbortRelease, outcome := Failure(StartRejected))
    case InsertTerminal =>
      if r != Accepted then p.Fail(TerminalRejected)
      else if p.result == ExecOk then p.(pc := Releasing)
      else if pc.rollbackOnFailure then p.(pc := RollingBack)
      else p.Fail(PhaseError(p.result))
    case InsertRolledBack => p.Fail(PhaseError(p.result))
  }

  function InsertStep(pc: PhaseConfig, s: State, pid: ProcessId, p: Process, f: Fault): State
    requires Inserting(p.pc)
  {
    var (db, r) := InsertEvent(s.db, PendingRow(pc.name, pid, p), f);
    Put(s.(db := db), pid, AfterInsert(pc, s.now, p, r))
  }

  function LockCall(now: int, db: Tables, pid: ProcessId, p: Process, f: Fault): (Tables, Reply)
    requires Locking(p.pc)
  {
    match p.pc
    case TryInsertLock => InsertLock(db, pid, p.clock, f)
    case TrySteal => StealLock(db, pid, p.clock, now, f)
    case Releasing => (ReleaseLock(db, f), Accepted)
    case AbortRelease => (ReleaseLock(db, f), Accepted)
  }

  function AfterLock(c: Config, p: Process, r: Reply): Process
    requires Locking(p.pc)
  {
    match p.pc
    case TryInsertLock =>
      (match r
       case Accepted => p.(pc := ReadMax)
       case Duplicate => p.(pc := TrySteal)
       case DbError => p.Fail(StoreError))
    case TrySteal =>
      (match r
       case Accepted => p.(pc := ReadMax)
       case Duplicate => p.Fail(LockHeld)
       case DbError => p.Fail(StoreError))
    case Releasing => p.NextPhase(c)                  // an error of ReleaseLock is ignored
    case AbortRelease => p.(pc := Returned)
  }

  function LockStep(c: Config, s: State, pid: ProcessId, p: Process, f: Fault): State
    requires Locking(p.pc)
  {
    var (db, r) := LockCall(s.now, s.db, pid, p, f);
    Put(s.(db := db), pid, AfterLock(c, p, r))
  }

  function DoStep(c: Config, s: State, pid: ProcessId, p: Process, f: Fault): State
    requires p.idx < |c|
  {
    if Reading(p.pc) then Put(s, pid, ReadStep(c, s.now, s.db, p, f))
    else if Inserting(p.pc) then InsertStep(c[p.idx], s, pid, p, f)
    else if Locking(p.pc) then LockStep(c, s, pid, p, f)
    else s
  }

  /** The process after its own statement. */
  function Moved(c: Config, s: State, pid: ProcessId, p: Process, f: Fault): Process
    requires p.idx < |c|
  {
    if Reading(p.pc) then ReadStep(c, s.now, s.db, p, f)
    else if Inserting(p.pc) then
      AfterInsert(c[p.idx], s.now, p, InsertEvent(s.db, PendingRow(c[p.idx].name, pid, p), f).1)
    else if Locking(p.pc) then AfterLock(c, p, LockCall(s.now, s.db, pid, p, f).1)
    else p
  }

  lemma DoMoves(c: Config, s: State, pid: ProcessId, p: Process, f: Fault)
    requires p.idx < |c| && pid in s.procs && p == s.procs[pid]
    ensures DoStep(c, s, pid, p, f).procs == s.procs[pid := Moved(c, s, pid, p, f)]
  {
    assert s.procs == s.procs[pid := p];
  }

  // ----- What an executor does to the target table while it runs or rolls back

  function WorkStep(name: string, s: State, pid: ProcessId, p: Process, n: nat): State {
    if p.pc != Executing && p.pc != RollingBack then s
    else if name == "expand" then s.(nulls := n)                              // the DDL may add or drop the column
    else if name == "backfill" && p.pc == Executing then s.(nulls := if n < s.nulls then n else s.nulls)
    else if name == "gate" && p.pc == Executing && s.nulls == 0 then
      Put(s, pid, p.(sawZero := true))                                        // the poll reads `expected`
    else s
  }

  /** A gate's Execute returns nil only after a poll that read the expected value. */
  function FinishStep(name: string, s: State, pid: ProcessId, p: Process, r: ExecResult): State {
    if p.pc != Executing || (name == "gate" && r == ExecOk && !p.sawZero) then s
    else Put(s, pid, p.(result := r, pc := Guard))
  }

  function CheckpointStep(name: string, s: State, p: Process, payload: int, f: Fault): State {
    if p.pc != Executing || name !in {"backfill", "contract"} || f == Lost(false) then s
    else s.(db := s.db.(checkpoints := s.db.checkpoints + [CheckpointRow(name, p.attempt, payload)]))
  }

  // ----- The heartbeat goroutine

  function BeatStep(name: string, s: State, pid: ProcessId, p: Process, f: Fault): State {
    if p.ticker != Waiting || !AfterStarted(p.pc) then s
    else
      var db := if f == Lost(false) then s.db
                else s.db.(heartbeats := s.db.heartbeats + [HeartbeatRow(name, p.attempt, pid)]);
      Put(s.(db := db), pid, p.(ticker := Refreshing))
  }

  function RefreshStep(s: State, pid: ProcessId, p: Process, f: Fault): State {
    if p.ticker != Refreshing || !AfterStarted(p.pc) then s
    else
      var (db, r) := RefreshLock(s.db, pid, s.now, f);
      Put(s.(db := db), pid,
          p.(beatAt := s.now,
             ticker := if r == Duplicate then Stopped else Waiting,
             misses := if r == Accepted then 0 else p.misses + 1))
  }

  function Apply(c: Config, s: State, l: Label): State {
    match l
    case Tick(d) => s.(now := s.now + d)
    case Gc => s.(db := s.db.(heartbeats := DeleteHeartbeats(s.db.heartbeats, s.db.history)))
    case Outside(n) => s.(nulls := n)
    case Start(pid, resume) => if pid in s.procs then s else Put(s, pid, NewProcess(c, resume))
    case Act(pid, action) =>
      if pid !in s.procs || s.procs[pid].idx >= |c| then s
      else
        var p := s.procs[pid];
        var name := c[p.idx].name;
        match action
        case Do(f) => DoStep(c, s, pid, p, f)
        case Finish(r) => FinishStep(name, s, pid, p, r)
        case Work(n) => WorkStep(name, s, pid, p, n)
        case Checkpoint(payload, f) => CheckpointStep(name, s, p, payload, f)
        case Beat(f) => BeatStep(name, s, pid, p, f)
        case Refresh(f) => RefreshStep(s, pid, p, f)
        case Crash => if Live(p) then Put(s, pid, p.(pc := Crashed, ticker := Stopped)) else s
  }

  /** The next statement of runPhase, undisturbed. */
  function Next(pid: ProcessId): Label {
    Act(pid, Do(NoFault))
  }

  function Exec(c: Config, s: State, ls: seq<Label>): State {
    if ls == [] then s else Apply(c, Exec(c, s, ls[..|ls| - 1]), Last(ls))
  }

  lemma {:induction false} ExecConcat(c: Config, s: State, a: seq<Label>, b: seq<Label>)
    ensures Exec(c, s, a + b) == Exec(c, Exec(c, s, a), b)
  {
    if b == [] {
      assert a + b == a;
    } else {
      assert (a + b)[..|a + b| - 1] == a + b[..|b| - 1];
      ExecConcat(c, s, a, b[..|b| - 1]);
    }
  }

  lemma ExecOne(c: Config, s: State, l: Label)
    ensures Exec(c, s, [l]) == Apply(c, s, l)
  {
    assert [l][..0] == [];
    assert Exec(c, s, [l][..0]) == s;
  }

  /** The smallest migration, for runs that show something. */
  function OnePhase(): Config {
    [PhaseConfig("expand", false)]
  }
}
