/** The four tables of internal/store and what each SQL statement does to them.
    A row's ID is its position in the sequence: inserts are atomic and IDs increase. */
module Store {
  datatype Option<+T> = None | Some(value: T)

  datatype EventType = Started | Completed | Failed | TimedOut | Skipped | RolledBack {
    predicate IsTerminal() {
      Completed? || Failed? || TimedOut? || RolledBack?
    }
  }

  type ProcessId = nat

  /** `writer` is not a column: it records which process ran the INSERT. */
  datatype PhaseEvent = PhaseEvent(phase: string, attempt: nat, kind: EventType, writer: ProcessId)

  datatype CheckpointRow<+P> = CheckpointRow(phase: string, attempt: nat, payload: P)

  datatype HeartbeatRow = HeartbeatRow(phase: string, attempt: nat, process: ProcessId)

  datatype LockRow = LockRow(holder: ProcessId, acquiredAt: int, expiresAt: int)

  datatype Tables = Tables(
    history: seq<PhaseEvent>,
    checkpoints: seq<CheckpointRow<int>>,
    heartbeats: seq<HeartbeatRow>,
    lock: Option<LockRow>)

  /** How one statement can go wrong: the client sees an error, and the server may or may not have committed. */
  datatype Fault = NoFault | Lost(committed: bool)

  datatype Reply = Accepted | Duplicate | DbError

  const LOCK_TTL: int := 90_000  // milliseconds

  function Last<T>(s: seq<T>): T
    requires s != []
  {
    s[|s| - 1]
  }

  // ----- PHASEDB_HISTORY

  /** The rows of one (phase, attempt), in ID order. */
  function Rows(h: seq<PhaseEvent>, phase: string, attempt: nat): seq<PhaseEvent> {
    if h == [] then []
    else
      var rest := Rows(h[..|h| - 1], phase, attempt);
      if Last(h).phase == phase && Last(h).attempt == attempt then rest + [Last(h)] else rest
  }

  function LatestEvent(h: seq<PhaseEvent>, phase: string): Option<PhaseEvent> {
    if h == [] then None
    else if Last(h).phase == phase then Some(Last(h))
    else LatestEvent(h[..|h| - 1], phase)
  }

  function LatestEventForAttempt(h: seq<PhaseEvent>, phase: string, attempt: nat): Option<PhaseEvent> {
    if h == [] then None
    else if Last(h).phase == phase && Last(h).attempt == attempt then Some(Last(h))
    else LatestEventForAttempt(h[..|h| - 1], phase, attempt)
  }

  function MaxAttemptNumber(h: seq<PhaseEvent>, phase: string): nat {
    if h == [] then 0
    else
      var rest := MaxAttemptNumber(h[..|h| - 1], phase);
      if Last(h).phase == phase && Last(h).attempt > rest then Last(h).attempt else rest
  }

  /** The unique key (phase, attempt, event type) already has a row. */
  predicate DuplicateKey(h: seq<PhaseEvent>, e: PhaseEvent) {
    exists i | 0 <= i < |h| :: h[i].phase == e.phase && h[i].attempt == e.attempt && h[i].kind == e.kind
  }

  function InsertEvent(t: Tables, e: PhaseEvent, f: Fault): (Tables, Reply) {
    if f == Lost(false) then (t, DbError)
    else if DuplicateKey(t.history, e) then (t, if f.Lost? then DbError else Duplicate)
    else (t.(history := t.history + [e]), if f.Lost? then DbError else Accepted)
  }

  // ----- PHASEDB_CHECKPOINTS

  function LatestCheckpoint<P>(rows: seq<CheckpointRow<P>>, phase: string, attempt: nat): Option<CheckpointRow<P>> {
    if rows == [] then None
    else if Last(rows).phase == phase && Last(rows).attempt == attempt then Some(Last(rows))
    else LatestCheckpoint(rows[..|rows| - 1], phase, attempt)
  }

  // ----- PHASEDB_LOCKS: one row per migration

  function InsertLock(t: Tables, holder: ProcessId, now: int, f: Fault): (Tables, Reply) {
    if f == Lost(false) then (t, DbError)
    else if t.lock.Some? then (t, if f.Lost? then DbError else Duplicate)
    else (t.(lock := Some(LockRow(holder, now, now + LOCK_TTL))), if f.Lost? then DbError else Accepted)
  }

  predicate Expired(l: LockRow, serverNow: int) {
    l.expiresAt < serverNow
  }

  /** The conditional UPDATE: `Duplicate` stands for zero affected rows. `now` was read before the INSERT. */
  function StealLock(t: Tables, holder: ProcessId, now: int, serverNow: int, f: Fault): (Tables, Reply) {
    if f == Lost(false) then (t, DbError)
    else if t.lock.None? || !Expired(t.lock.value, serverNow) then (t, if f.Lost? then DbError else Duplicate)
    else (t.(lock := Some(LockRow(holder, now, now + LOCK_TTL))), if f.Lost? then DbError else Accepted)
  }

  function RefreshLock(t: Tables, holder: ProcessId, now: int, f: Fault): (Tables, Reply) {
    if f == Lost(false) then (t, DbError)
    else if t.lock.None? || t.lock.value.holder != holder then (t, if f.Lost? then DbError else Duplicate)
    else (t.(lock := Some(t.lock.value.(expiresAt := now + LOCK_TTL))), if f.Lost? then DbError else Accepted)
  }

  /** Deletes by migration only: whoever holds the row loses it. */
  function ReleaseLock(t: Tables, f: Fault): Tables {
    if f == Lost(false) then t else t.(lock := None)
  }

  // ----- PHASEDB_HEARTBEATS

  /** The correlated subquery of the gc DELETE: a STARTED row with no terminal row of its attempt at a later ID. */
  predicate StillRunning(h: seq<PhaseEvent>, phase: string) {
    exists i | 0 <= i < |h| ::
      h[i].phase == phase && h[i].kind == Started &&
      !exists j | 0 <= j < |h| ::
         h[j].phase == phase && h[j].attempt == h[i].attempt && h[j].kind.IsTerminal() && j > i
  }

  function DeleteHeartbeats(beats: seq<HeartbeatRow>, h: seq<PhaseEvent>): seq<HeartbeatRow> {
    if beats == [] then []
    else (if StillRunning(h, beats[0].phase) then [beats[0]] else []) + DeleteHeartbeats(beats[1..], h)
  }

  // ----- Facts about the queries

  ghost predicate CompletedBefore(h: seq<PhaseEvent>, k: nat, phase: string)
    requires k <= |h|
  {
    exists i :: 0 <= i < k && h[i].phase == phase && h[i].kind == Completed
  }

  lemma {:induction false} RowsAppend(h: seq<PhaseEvent>, e: PhaseEvent)
    ensures forall ph, a :: Rows(h + [e], ph, a)
                         == Rows(h, ph, a) + (if e.phase == ph && e.attempt == a then [e] else [])
    ensures forall ph :: MaxAttemptNumber(h + [e], ph)
                      == if e.phase == ph && e.attempt > MaxAttemptNumber(h, ph)
                         then e.attempt else MaxAttemptNumber(h, ph)
    ensures forall ph :: LatestEvent(h + [e], ph) == if e.phase == ph then Some(e) else LatestEvent(h, ph)
  {
    assert (h + [e])[..|h|] == h;
  }

  lemma {:induction false} RowsMember(h: seq<PhaseEvent>, ph: string, a: nat, r: PhaseEvent)
    ensures r in Rows(h, ph, a) <==> r in h && r.phase == ph && r.attempt == a
  {
    if h != [] {
      RowsMember(h[..|h| - 1], ph, a, r);
      assert h == h[..|h| - 1] + [Last(h)];
    }
  }

  /** The guard query reads the last of the attempt's rows. */
  lemma {:induction false} LatestEventForAttemptIsLast(h: seq<PhaseEvent>, ph: string, a: nat)
    ensures LatestEventForAttempt(h, ph, a) == if Rows(h, ph, a) == [] then None else Some(Last(Rows(h, ph, a)))
  {
    if h != [] {
      LatestEventForAttemptIsLast(h[..|h| - 1], ph, a);
    }
  }

  /** ORDER BY ID DESC LIMIT 1: the row found is of the phase and none of the phase has a larger ID. */
  lemma {:induction false} LatestEventIsLast(h: seq<PhaseEvent>, ph: string)
    ensures LatestEvent(h, ph).None? <==> forall i :: 0 <= i < |h| ==> h[i].phase != ph
    ensures LatestEvent(h, ph).Some? ==>
              exists i :: 0 <= i < |h| && h[i] == LatestEvent(h, ph).value && h[i].phase == ph
                          && forall j :: i < j < |h| ==> h[j].phase != ph
  {
    if h != [] && Last(h).phase != ph {
      var front := h[..|h| - 1];
      LatestEventIsLast(front, ph);
      assert forall i :: 0 <= i < |front| ==> front[i] == h[i];
      if LatestEvent(h, ph).Some? {
        var i :| 0 <= i < |front| && front[i] == LatestEvent(h, ph).value && front[i].phase == ph
                 && forall j :: i < j < |front| ==> front[j].phase != ph;
        assert h[i] == LatestEvent(h, ph).value;
      }
    }
  }

  lemma {:induction false} MaxAttemptIsBound(h: seq<PhaseEvent>, ph: string)
    ensures forall i :: 0 <= i < |h| && h[i].phase == ph ==> h[i].attempt <= MaxAttemptNumber(h, ph)
    ensures MaxAttemptNumber(h, ph) == 0
            || exists i :: 0 <= i < |h| && h[i].phase == ph && h[i].attempt == MaxAttemptNumber(h, ph)
  {
    if h != [] {
      var front := h[..|h| - 1];
      MaxAttemptIsBound(front, ph);
      assert forall i :: 0 <= i < |front| ==> front[i] == h[i];
    }
  }

  lemma {:induction false} CheckpointAppend<P>(rows: seq<CheckpointRow<P>>, r: CheckpointRow<P>, ph: string, a: nat)
    ensures LatestCheckpoint(rows + [r], ph, a)
         == if r.phase == ph && r.attempt == a then Some(r) else LatestCheckpoint(rows, ph, a)
  {
    assert (rows + [r])[..|rows|] == rows;
  }

  /** ORDER BY ID DESC LIMIT 1: the row found is of the attempt and none of the attempt has a larger ID. */
  lemma {:induction false} LatestCheckpointIsRow<P>(rows: seq<CheckpointRow<P>>, ph: string, a: nat)
    ensures LatestCheckpoint(rows, ph, a).Some? ==>
              exists i :: 0 <= i < |rows| && rows[i] == LatestCheckpoint(rows, ph, a).value
                          && rows[i].phase == ph && rows[i].attempt == a
                          && forall j :: i < j < |rows| ==> rows[j].phase != ph || rows[j].attempt != a
    ensures LatestCheckpoint(rows, ph, a).None? ==> forall r | r in rows :: r.phase != ph || r.attempt != a
  {
    if rows != [] {
      var front := rows[..|rows| - 1];
      assert rows == front + [Last(rows)];
      LatestCheckpointIsRow(front, ph, a);
      if Last(rows).phase == ph && Last(rows).attempt == a {
        assert rows[|rows| - 1] == LatestCheckpoint(rows, ph, a).value;
      } else if LatestCheckpoint(front, ph, a).Some? {
        var i :| 0 <= i < |front| && front[i] == LatestCheckpoint(front, ph, a).value
                 && front[i].phase == ph && front[i].attempt == a
                 && forall j :: i < j < |front| ==> front[j].phase != ph || front[j].attempt != a;
        assert rows[i] == front[i];
        assert forall j :: i < j < |front| ==> rows[j] == front[j];
      }
    }
  }
}
