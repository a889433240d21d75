/** internal/output/status.go: what `phasedb status` reports, and how it agrees with the history and the backfill. */
module Status {
  import opened Arithmetic
  import opened Store
  import opened Transitions
  import opened Table
  import opened Backfill

  const CANONICAL: seq<string> := ["expand", "backfill", "gate", "contract"]

  datatype Warning = NoWarning | StaleLock | NoActiveLock

  /** The fields of StatusJSON that BuildStatus computes; `phaseStatus` None stands for "not_started". */
  datatype Report = Report(
    currentPhase: Option<string>,
    phaseStatus: Option<EventType>,
    attempt: nat,
    runningOn: Option<ProcessId>,
    warning: Warning,
    progress: Option<real>,
    remaining: Option<int>,
    rowsProcessed: Option<int>)

  /** The last phase, in canonical order, that has any event. */
  ghost predicate IsCurrent(h: seq<PhaseEvent>, phase: string) {
    exists i :: 0 <= i < |CANONICAL| && CANONICAL[i] == phase && LatestEvent(h, phase).Some?
                && forall j :: i < j < |CANONICAL| ==> LatestEvent(h, CANONICAL[j]).None?
  }

  lemma DivideBound(a: int, n: int)
    requires n > 0
    ensures 0 <= a <= n ==> 0.0 <= a as real / n as real <= 1.0
    ensures a == n ==> a as real / n as real == 1.0
  {
    var q := a as real / n as real;
    assert q * n as real == a as real;
    assert q > 1.0 ==> q * n as real > n as real;
    assert q < 1.0 ==> q * n as real < n as real;
  }

  function Progress(cp: BackfillCheckpoint): real
    requires cp.nullAtStart > 0
  {
    var p := cp.processed as real / cp.nullAtStart as real;
    if p > 1.0 then 1.0 else p
  }

  function Remaining(cp: BackfillCheckpoint): int {
    if cp.nullAtStart - cp.processed < 0 then 0 else cp.nullAtStart - cp.processed
  }

  lemma Scale(x: real, y: real, d: real)
    requires d > 0.0
    ensures x <= y <==> x * d <= y * d
  {
  }

  lemma ProgressIs(cp: BackfillCheckpoint)
    requires 0 <= cp.processed <= cp.nullAtStart && cp.nullAtStart > 0
    ensures 0.0 <= Progress(cp) == cp.processed as real / cp.nullAtStart as real
  {
    DivideBound(cp.processed, cp.nullAtStart);
  }

  /** The share done and the rows remaining always add up to the rows at the start, even when more have been processed
      than there were: then status shows all of them done. */
  lemma ProgressAndRemaining(cp: BackfillCheckpoint)
    requires cp.nullAtStart > 0
    ensures Progress(cp) * cp.nullAtStart as real == Least(cp.processed, cp.nullAtStart) as real
    ensures Progress(cp) * cp.nullAtStart as real + Remaining(cp) as real == cp.nullAtStart as real
    ensures Progress(cp) == 1.0 <==> cp.processed >= cp.nullAtStart
  {
    var p, n := cp.processed as real / cp.nullAtStart as real, cp.nullAtStart as real;
    assert p * n == cp.processed as real;
    Scale(p, 1.0, n);
    Scale(1.0, p, n);
  }

  lemma DivideMonotone(a: int, b: int, n: int)
    requires n > 0 && a <= b
    ensures a as real / n as real <= b as real / n as real
  {
  }

  lemma CurrentInFull(h: seq<PhaseEvent>, current: Option<string>)
    requires current.None? <==> forall i :: 0 <= i < |CANONICAL| ==> LatestEvent(h, CANONICAL[i]).None?
    requires current.Some? ==> IsCurrent(h, current.value)
    ensures current == if LatestEvent(h, "contract").Some? then Some("contract")
                       else if LatestEvent(h, "gate").Some? then Some("gate")
                       else if LatestEvent(h, "backfill").Some? then Some("backfill")
                       else if LatestEvent(h, "expand").Some? then Some("expand") else None
  {
    assert CANONICAL[0] == "expand" && CANONICAL[1] == "backfill";
    assert CANONICAL[2] == "gate" && CANONICAL[3] == "contract";
  }

  method BuildStatus(h: seq<PhaseEvent>, lock: Option<LockRow>, now: int,
                     checkpoints: seq<CheckpointRow<BackfillCheckpoint>>)
    returns (st: Report)
    ensures st.currentPhase == if LatestEvent(h, "contract").Some? then Some("contract")
                               else if LatestEvent(h, "gate").Some? then Some("gate")
                               else if LatestEvent(h, "backfill").Some? then Some("backfill")
                               else if LatestEvent(h, "expand").Some? then Some("expand") else None
    ensures st.currentPhase.None? ==> st == Report(None, None, 0, None, NoWarning, None, None, None)
    ensures st.currentPhase.Some? ==>
              var phase := st.currentPhase.value;
              && IsCurrent(h, phase)
              && st.phaseStatus == Some(LatestEvent(h, phase).value.kind)
              && st.attempt == LatestEvent(h, phase).value.attempt
              && (st.runningOn == if lock.Some? then Some(lock.value.holder) else None)
              && (st.warning == StaleLock <==> lock.Some? && Expired(lock.value, now))
              && (st.warning == NoActiveLock <==> lock.None? && st.phaseStatus == Some(Started))
              && (st.phaseStatus == Some(Started) ==>
                    (st.warning != NoWarning <==> DetermineState(LatestEvent(h, phase), lock, now) == Orphaned))
    ensures (st.remaining.Some? <==> st.progress.Some?) && (st.rowsProcessed.Some? <==> st.progress.Some?)
    ensures st.remaining.Some? ==>
              && st.currentPhase == Some("backfill")
              && LatestCheckpoint(checkpoints, "backfill", st.attempt).Some?
              && var cp := LatestCheckpoint(checkpoints, "backfill", st.attempt).value.payload;
                 && cp.nullAtStart > 0 && st.remaining == Some(Remaining(cp)) && st.progress == Some(Progress(cp))
                 && st.rowsProcessed == Some(cp.processed)
                 // shown in full: the share done, and what is left of the rows at the start
                 && st.progress.value * cp.nullAtStart as real == Least(cp.processed, cp.nullAtStart) as real
                 && st.remaining.value as real == (1.0 - st.progress.value) * cp.nullAtStart as real
    ensures st.currentPhase == Some("backfill") && st.remaining.None? ==>
              var cp := LatestCheckpoint(checkpoints, "backfill", st.attempt);
              cp.None? || cp.value.payload.nullAtStart <= 0
  {
    st := Report(None, None, 0, None, NoWarning, None, None, None);
    var currentPhase: Option<string> := None;
    var currentEvent: Option<PhaseEvent> := None;
    for i := 0 to |CANONICAL|
      invariant currentPhase.None? <==> forall j :: 0 <= j < i ==> LatestEvent(h, CANONICAL[j]).None?
      invariant currentPhase.None? <==> currentEvent.None?
      invariant currentPhase.Some? ==>
                  exists k :: 0 <= k < i && CANONICAL[k] == currentPhase.value
                              && LatestEvent(h, currentPhase.value) == currentEvent
                              && forall j :: k < j < i ==> LatestEvent(h, CANONICAL[j]).None?
    {
      var ev := LatestEvent(h, CANONICAL[i]);
      if ev.Some? {
        currentPhase, currentEvent := Some(CANONICAL[i]), ev;
      }
    }
    CurrentInFull(h, currentPhase);
    if currentEvent.None? {
      return;
    }
    st := st.(currentPhase := currentPhase,
              phaseStatus := Some(currentEvent.value.kind), attempt := currentEvent.value.attempt);
    if lock.Some? {
      st := st.(runningOn := Some(lock.value.holder));
      if now > lock.value.expiresAt {
        st := st.(warning := StaleLock);
      }
    } else if currentEvent.value.kind == Started {
      st := st.(warning := NoActiveLock);
    }
    if currentPhase == Some("backfill") {
      var cp := LatestCheckpoint(checkpoints, "backfill", st.attempt);
      if cp.Some? && cp.value.payload.nullAtStart > 0 {
        ProgressAndRemaining(cp.value.payload);
        st := st.(progress := Some(Progress(cp.value.payload)),
                  remaining := Some(Remaining(cp.value.payload)),
                  rowsProcessed := Some(cp.value.payload.processed));
      }
    }
  }

  /** The checkpoints from index `from` on show progress that never goes back and stays in [0, 1]. */
  ghost predicate Rises(rows: seq<CheckpointRow<BackfillCheckpoint>>, from: nat) {
    && (forall i :: from <= i < |rows| ==> rows[i].payload.nullAtStart > 0)
    && (forall i, j :: from <= i <= j < |rows| ==>
          && 0.0 <= Progress(rows[i].payload) <= Progress(rows[j].payload) <= 1.0
          && Remaining(rows[i].payload) >= Remaining(rows[j].payload) >= 0)
  }

  lemma AscendingRises(rows: seq<CheckpointRow<BackfillCheckpoint>>, from: nat, n: int)
    requires Ascending(rows, from, n, n) && n > 0
    ensures Rises(rows, from)
  {
    forall i, j | from <= i <= j < |rows|
      ensures rows[i].payload.nullAtStart == n
      ensures 0.0 <= Progress(rows[i].payload) <= Progress(rows[j].payload) <= 1.0
      ensures Remaining(rows[i].payload) >= Remaining(rows[j].payload) >= 0
    {
      DivideMonotone(rows[i].payload.processed, rows[j].payload.processed, n);
      DivideBound(rows[i].payload.processed, n);
    }
  }

  lemma CompareFractions(a: int, n: int, k: int, m: int)
    requires n > 0 && m > 0
    ensures a as real / n as real <= k as real / m as real <==> a * m <= k * n
  {
    var x, y, n', m' := a as real / n as real, k as real / m as real, n as real, m as real;
    assert x * n' == a as real && y * m' == k as real;
    assert (a * m) as real == (x * n') * m' == x * (n' * m');
    assert (k * n) as real == (y * m') * n' == y * (n' * m');
    Scale(x, y, n' * m');
  }

  lemma MulCommutes(a: int, b: int)
    ensures a * b == b * a
  {
  }

  lemma FractionsGoOnIff(before: BackfillCheckpoint, after: BackfillCheckpoint, left: nat, cfg: BatchConfig)
    requires 0 <= before.processed <= before.nullAtStart && before.nullAtStart > 0
    requires left > 0 && OpensWith(after, left, cfg)
    ensures Progress(before) <= Progress(after)
       <==> before.processed * left <= before.nullAtStart * Least(cfg.Every() * cfg.size, left)
  {
    ProgressIs(before);
    ProgressIs(after);
    CompareFractions(before.processed, before.nullAtStart, after.processed, left);
    MulCommutes(after.processed, before.nullAtStart);
  }

  /** The checkpoint status shows for an attempt. */
  function Shown(cps: Checkpoints, attempt: nat): Option<BackfillCheckpoint>
    reads cps
  {
    var cp := LatestCheckpoint(cps.rows, "backfill", attempt);
    if cp.Some? then Some(cp.value.payload) else None
  }

  lemma ShownIsLast(rows0: seq<CheckpointRow<BackfillCheckpoint>>, rows: seq<CheckpointRow<BackfillCheckpoint>>,
                    attempt: nat)
    requires rows0 <= rows && forall r :: r in rows0 ==> r.attempt != attempt
    requires forall i :: |rows0| <= i < |rows| ==> rows[i].phase == "backfill" && rows[i].attempt == attempt
    ensures LatestCheckpoint(rows, "backfill", attempt) == if |rows| > |rows0| then Some(Last(rows)) else None
  {
    LatestCheckpointIsRow(rows, "backfill", attempt);
  }

  lemma LeftIsLess(t0: Rows, t: Rows, w0: multiset<int>, w: multiset<int>, fill: int -> int)
    requires Accounted(t0, t, w0, w, fill)
    ensures |Nulls(t)| <= |Nulls(t0)|
  {
    assert forall k :: k in t0 ==> t[k] == t0[k] || t[k] == UpdateAll(t0, fill)[k];
    assert Nulls(t) <= Nulls(t0);
    SubsetSize(Nulls(t), Nulls(t0));
  }

  /** One execution of an attempt without checkpoints, on n NULL rows of which `left` remain: what it has added to the
      checkpoints, and what status shows of it. */
  ghost predicate FreshRun(cps0: seq<CheckpointRow<BackfillCheckpoint>>, cps: seq<CheckpointRow<BackfillCheckpoint>>,
                           executor: BackfillExecutor, n: nat, left: nat, r: Result, p: Loop,
                           shown: Option<BackfillCheckpoint>)
  {
    && cps0 <= cps && left <= n
    && (forall i :: |cps0| <= i < |cps| ==> cps[i].phase == "backfill" && cps[i].attempt == executor.attempt)
    && shown == (if |cps| > |cps0| then Some(Last(cps).payload) else None)
    && (shown.Some? ==> 0 <= shown.value.processed <= shown.value.nullAtStart == n)
    && (|cps| > |cps0| ==> OpensWith(cps[|cps0|].payload, n, executor.cfg))
    && (n > 0 ==> Rises(cps, |cps0|))
    && (r != QueryError ==> p.total + left == n)
    && (r != QueryError && p.total < n && executor.cfg.Every() <= p.batchNum ==> shown.Some?)
    && (r == Ok ==> shown.Some?)
    && (r != QueryError && shown.Some? ==> Lag(shown.value, left, p.batchNum, executor.cfg))
  }

  lemma IsFreshRun(cps0: seq<CheckpointRow<BackfillCheckpoint>>, cps: seq<CheckpointRow<BackfillCheckpoint>>,
                   executor: BackfillExecutor, n: nat, left: nat, r: Result, p: Loop, shown: Option<BackfillCheckpoint>)
    requires executor.cfg.size > 0 && cps0 <= cps && left <= n && Ascending(cps, |cps0|, n, n)
    requires forall i :: |cps0| <= i < |cps| ==> cps[i].phase == "backfill" && cps[i].attempt == executor.attempt
    requires shown == if |cps| > |cps0| then Some(Last(cps).payload) else None
    requires |cps| > |cps0| ==> OpensWith(cps[|cps0|].payload, n, executor.cfg)
    requires r != QueryError ==>
               && p.total + left == n && Regular(cps, |cps0|, Steps(p, n, executor.cfg), r == Ok, executor.cfg)
               && (|cps| > |cps0| ==> Lag(Last(cps).payload, left, p.batchNum, executor.cfg))
    ensures FreshRun(cps0, cps, executor, n, left, r, p, shown)
  {
    if n > 0 {
      AscendingRises(cps, |cps0|, n);
    }
    if r != QueryError && p.total < n && executor.cfg.Every() <= p.batchNum {
      assert p.batchNum / executor.cfg.Every() > 0;
    }
  }

  method ShowAfter(db: Target, cps: Checkpoints, executor: BackfillExecutor, start: StartFaults, env: seq<Turn>)
    returns (r: Result, p: Loop, shown: Option<BackfillCheckpoint>)
    requires db.Valid() && Resumable(db, cps) && executor.phase == "backfill" && executor.cfg.size > 0
    requires EditFreeAll(env) && KeptAll(env)
    requires forall row :: row in cps.rows ==> row.attempt < executor.attempt
    modifies db`rows, db`nextId, db`writes, db`touched, cps
    ensures db.Valid() && Resumable(db, cps) && shown == Shown(cps, executor.attempt)
    ensures FreshRun(old(cps.rows), cps.rows, executor, |Nulls(old(db.rows))|, |Nulls(db.rows)|, r, p, shown)
    ensures QuietAll(executor.cfg, env) && start == NoStartFault && executor.cfg.doneExpected == 0
            && |env| <= CeilDiv(|Nulls(old(db.rows))|, executor.cfg.size) ==>
              r == Interrupted && Paced(p, |env|, |Nulls(old(db.rows))|, executor.cfg)
  {
    ghost var rows0, table0, writes0 := cps.rows, db.rows, db.writes;
    r, p := executor.Execute(db, cps, start, env);
    ShownIsLast(rows0, cps.rows, executor.attempt);
    LeftIsLess(table0, db.rows, writes0, db.writes, db.fill);
    shown := Shown(cps, executor.attempt);
    IsFreshRun(rows0, cps.rows, executor, |Nulls(table0)|, |Nulls(db.rows)|, r, p, shown);
  }

  /** A backfill cut off anywhere and resumed, as the runner does it, under a new attempt. `shown` is what status shows
      when the resumed execution starts on the `left` rows still NULL; `from` is the position of the first checkpoint
      it writes, if it writes any. Progress does not go back there exactly when the share shown is at most that of one
      checkpoint period, or of all, in the rows left. */
  method ResumeShows(db: Target, cps: Checkpoints, first: BackfillExecutor, start1: StartFaults, env1: seq<Turn>,
                     second: BackfillExecutor, start2: StartFaults, env2: seq<Turn>)
    returns (shown: Option<BackfillCheckpoint>, left: nat, from: nat, ghost p1: Loop, ghost p2: Loop)
    requires db.Valid() && Resumable(db, cps) && first.phase == second.phase == "backfill"
    requires first.cfg == second.cfg && first.cfg.size > 0 && first.attempt < second.attempt
    requires EditFreeAll(env1) && KeptAll(env1) && EditFreeAll(env2) && KeptAll(env2)
    requires forall row :: row in cps.rows ==> row.attempt < first.attempt
    modifies db`rows, db`nextId, db`writes, db`touched, cps
    ensures db.Valid() && Resumable(db, cps) && |old(cps.rows)| <= from <= |cps.rows|
    ensures exists r, rows :: rows <= cps.rows && |rows| == from
              && FreshRun(old(cps.rows), rows, first, |Nulls(old(db.rows))|, left, r, p1, shown)
    ensures exists r, next :: FreshRun(cps.rows[..from], cps.rows, second, left, |Nulls(db.rows)|, r, p2, next)
    ensures from < |cps.rows| && shown.Some? && left > 0 ==>
              && 0 <= shown.value.processed <= shown.value.nullAtStart && shown.value.nullAtStart > 0
              && cps.rows[from].attempt == second.attempt && cps.rows[from].payload.nullAtStart == left
              && (Progress(shown.value) <= Progress(cps.rows[from].payload)
                  <==> shown.value.processed * left
                       <= shown.value.nullAtStart * Least(second.cfg.Every() * second.cfg.size, left))
  {
    var r1, q1;
    r1, q1, shown := ShowAfter(db, cps, first, start1, env1);
    left, from, p1 := |Nulls(db.rows)|, |cps.rows|, q1;
    ghost var rows := cps.rows;
    var r2, q2, next := ShowAfter(db, cps, second, start2, env2);
    p2 := q2;
    assert cps.rows[..from] == rows;
    if from < |cps.rows| && shown.Some? && left > 0 {
      FractionsGoOnIff(shown.value, cps.rows[from].payload, left, second.cfg);
    }
  }

  lemma CurrentIsUnique(h: seq<PhaseEvent>, phase: string)
    requires IsCurrent(h, phase)
    ensures forall q :: IsCurrent(h, q) ==> q == phase
    ensures exists i :: 0 <= i < |CANONICAL| && LatestEvent(h, CANONICAL[i]).Some?
  {
  }

  /** Status asked while backfill is the current phase. */
  method StatusOfAttempt(h: seq<PhaseEvent>, cps: Checkpoints, attempt: nat) returns (st: Report)
    requires LatestEvent(h, "gate").None? && LatestEvent(h, "contract").None?
    requires LatestEvent(h, "backfill").Some? && LatestEvent(h, "backfill").value.attempt == attempt
    requires Shown(cps, attempt).Some? && Shown(cps, attempt).value.nullAtStart > 0
    ensures st.attempt == attempt && st.progress == Some(Progress(Shown(cps, attempt).value))
  {
    st := BuildStatus(h, None, 0, cps.rows);
    assert IsCurrent(h, "backfill") by {
      assert CANONICAL[1] == "backfill";
    }
    CurrentIsUnique(h, "backfill");
  }

  function FiveNulls(): Rows {
    map[1 := Row(0, None), 2 := Row(0, None), 3 := Row(0, None), 4 := Row(0, None), 5 := Row(0, None)]
  }

  function StartOf(attempt: nat): PhaseEvent {
    PhaseEvent("backfill", attempt, Started, attempt)
  }

  /** An undisturbed attempt on n NULL rows in batches of one, cut off after some of them. */
  method CutOff(db: Target, cps: Checkpoints, cfg: BatchConfig, attempt: nat, n: nat, env: seq<Turn>)
    returns (shown: Option<BackfillCheckpoint>)
    requires db.Valid() && Resumable(db, cps) && cfg.size == 1 && cfg.checkpointEvery == 1 && cfg.doneExpected == 0
    requires |Nulls(db.rows)| == n && 0 < |env| < n && QuietAll(cfg, env) && KeptAll(env)
    requires forall row :: row in cps.rows ==> row.attempt < attempt
    modifies db`rows, db`nextId, db`writes, db`touched, cps
    ensures db.Valid() && Resumable(db, cps) && |Nulls(db.rows)| == n - |env|
    ensures forall row :: row in cps.rows ==> row.attempt <= attempt
    ensures shown.Some? && shown == Shown(cps, attempt)
    ensures shown.value.processed == |env| && shown.value.nullAtStart == n
  {
    var executor := new BackfillExecutor(cfg, "backfill", attempt);
    CeilDivIs(n, 1, n);
    var r, p;
    r, p, shown := ShowAfter(db, cps, executor, NoStartFault, env);
  }

  /** A run in which it does go back: five rows, batches of one, a cut after two of them and a resume under attempt 2.
      Status shows 2 of 5, then 1 of the 3 that were left. */
  method ProgressCanGoBack() returns (db: Target, cps: Checkpoints, st1: Report, st2: Report)
    ensures |Nulls(db.rows)| == 2
    ensures st1.attempt == 1 && st2.attempt == 2
    ensures st1.progress.Some? && st2.progress.Some? && st2.progress.value < st1.progress.value
  {
    var cfg := BatchConfig(1, 0, 500, 1, true, 0);
    db := new Target(FiveNulls(), 6, x => x);
    cps := new Checkpoints();
    assert Nulls(db.rows) == {1, 2, 3, 4, 5};
    var first := CutOff(db, cps, cfg, 1, 5, [QuietTurn(), QuietTurn()]);
    st1 := StatusOfAttempt([StartOf(1)], cps, 1);
    var second := CutOff(db, cps, cfg, 2, 3, [QuietTurn()]);
    st2 := StatusOfAttempt([StartOf(1), StartOf(2)], cps, 2);
    ProgressIs(first.value);
    ProgressIs(second.value);
    CompareFractions(2, 5, 1, 3);
  }

  lemma LatestIsLast<P>(rows: seq<CheckpointRow<P>>)
    requires rows != []
    ensures LatestCheckpoint(rows, Last(rows).phase, Last(rows).attempt) == Some(Last(rows))
  {
  }

  lemma CompleteIsOne(cp: BackfillCheckpoint)
    requires cp.nullAtStart == cp.processed > 0
    ensures Progress(cp) == 1.0 && Remaining(cp) == 0
  {
    DivideBound(cp.processed, cp.nullAtStart);
  }

  /** An execution of an attempt that has no checkpoint yet, and the one status finds of it afterwards. */
  method ExecuteFresh(db: Target, cps: Checkpoints, executor: BackfillExecutor, start: StartFaults, env: seq<Turn>)
    returns (r: Result, ghost shown: Option<BackfillCheckpoint>)
    requires db.Valid() && Resumable(db, cps) && executor.cfg.size > 0 && executor.phase == "backfill"
    requires EditFreeAll(env) && KeptAll(env) && Shown(cps, executor.attempt).None?
    modifies db`rows, db`nextId, db`writes, db`touched, cps
    ensures shown == Shown(cps, executor.attempt)
    ensures r != QueryError && shown.Some? ==>
              0 <= Remaining(shown.value) - |Nulls(db.rows)| <= (executor.cfg.Every() - 1) * executor.cfg.size
    ensures r == Ok ==> shown.Some? && shown.value.processed == shown.value.nullAtStart == |Nulls(old(db.rows))|
  {
    var p;
    r, p := executor.Execute(db, cps, start, env);
    shown := Shown(cps, executor.attempt);
    if |cps.rows| > |old(cps.rows)| {
      LatestIsLast(cps.rows);
    } else {
      assert cps.rows == old(cps.rows);
    }
  }

  /** Status asked at any moment a fresh attempt of backfill is at its loop head, or has returned nil: the remaining
      count is never less than the true one and exceeds it by less than one checkpoint period of batches. */
  method StatusOfBackfill(db: Target, cps: Checkpoints, executor: BackfillExecutor, start: StartFaults, env: seq<Turn>,
                          h: seq<PhaseEvent>, lock: Option<LockRow>, now: int)
    returns (r: Result, st: Report)
    requires db.Valid() && Resumable(db, cps) && executor.cfg.size > 0 && executor.phase == "backfill"
    requires EditFreeAll(env) && KeptAll(env)
    requires LatestEvent(h, "gate").None? && LatestEvent(h, "contract").None?
    requires LatestEvent(h, "backfill").Some? && LatestEvent(h, "backfill").value.attempt == executor.attempt
    requires LatestCheckpoint(cps.rows, "backfill", executor.attempt).None?
    modifies db`rows, db`nextId, db`writes, db`touched, cps
    ensures r != QueryError && st.remaining.Some? ==>
              0 <= st.remaining.value - |Nulls(db.rows)| <= (executor.cfg.Every() - 1) * executor.cfg.size
    ensures r == Ok && Nulls(old(db.rows)) != {} ==> st.remaining == Some(0) && st.progress == Some(1.0)
  {
    ghost var shown;
    r, shown := ExecuteFresh(db, cps, executor, start, env);
    st := BuildStatus(h, lock, now, cps.rows);
    assert IsCurrent(h, "backfill") by {
      assert CANONICAL[1] == "backfill";
    }
    CurrentIsUnique(h, "backfill");
    if r == Ok && Nulls(old(db.rows)) != {} {
      CompleteIsOne(shown.value);
    }
  }
}
