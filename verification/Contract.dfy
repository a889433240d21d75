/** internal/phase/contract.go: statement by statement with a checkpoint after each, under crashes, lost checkpoint
    inserts and failed checkpoint reads. */
module Contract {
  import opened Arithmetic
  import opened Store
  import opened SqlText

  /** What the world does to one statement; the process dies when the turns run out. */
  datatype Turn = Turn(
    ddl: Fault,          // ExecDDL: an error, after which the statement may or may not have been applied
    killed: bool,        // the process dies between the statement and its checkpoint
    checkpoint: Fault)   // InsertCheckpoint; an error is only logged

  datatype Result = Ok | DdlError(index: nat) | Killed

  /** One statement past the highest that has run. */
  function High(ran: seq<nat>): nat {
    if ran == [] then 0
    else
      var h := High(ran[..|ran| - 1]);
      if Last(ran) + 1 > h then Last(ran) + 1 else h
  }

  /** No statement has run before all its predecessors. */
  ghost predicate Stairs(ran: seq<nat>) {
    forall i, k :: 0 <= i < |ran| && 0 <= k < ran[i] ==> k in ran[..i]
  }

  ghost predicate AllRan(ran: seq<nat>, n: nat) {
    forall k :: 0 <= k < n ==> k in ran
  }

  lemma HighAppend(ran: seq<nat>, k: nat)
    ensures High(ran + [k]) == if k + 1 > High(ran) then k + 1 else High(ran)
  {
    assert (ran + [k])[..|ran|] == ran;
  }

  lemma {:induction false} HighIsRan(ran: seq<nat>)
    requires Stairs(ran)
    ensures AllRan(ran, High(ran))
    ensures forall k :: k in ran ==> k < High(ran)
  {
    if ran != [] {
      var front := ran[..|ran| - 1];
      assert ran == front + [Last(ran)];
      forall i, k | 0 <= i < |front| && 0 <= k < front[i]
        ensures k in front[..i]
      {
        assert k in ran[..i] && ran[..i] == front[..i];
      }
      HighIsRan(front);
      forall k: nat | k < High(ran)
        ensures k in ran
      {
        assert k < High(front) ==> k in front;
        assert k < Last(ran) ==> k in ran[..|ran| - 1];
      }
    }
  }

  lemma StairsAppend(ran: seq<nat>, k: nat)
    requires Stairs(ran) && k <= High(ran)
    ensures Stairs(ran + [k])
  {
    HighIsRan(ran);
    forall i, m | 0 <= i < |ran + [k]| && 0 <= m < (ran + [k])[i]
      ensures m in (ran + [k])[..i]
    {
      assert (ran + [k])[..i] == ran[..i];
      if i < |ran| {
        assert m in ran[..i];
      } else {
        assert m in ran && ran[..i] == ran;
      }
    }
  }

  /** from, from + 1, ..., to - 1 */
  function Upto(from: nat, to: nat): (r: seq<nat>)
    requires from <= to
    ensures |r| == to - from && forall i :: 0 <= i < |r| ==> r[i] == from + i
  {
    seq(to - from, i requires 0 <= i => from + i)
  }

  lemma UptoAppend(ran: seq<nat>, from: nat, to: nat)
    requires from <= to
    ensures ran + Upto(from, to) + [to] == ran + Upto(from, to + 1)
  {
    assert Upto(from, to) + [to] == Upto(from, to + 1);
  }

  /** The texts sent are those of the statements run. */
  ghost predicate Texts(ran: seq<nat>, sent: seq<string>, stmts: seq<string>) {
    |sent| == |ran| && forall i :: 0 <= i < |ran| ==> ran[i] < |stmts| && sent[i] == stmts[ran[i]]
  }

  lemma TextsFollow(ran0: seq<nat>, sent0: seq<string>, ran: seq<nat>, sent: seq<string>, stmts: seq<string>,
                    from: nat, to: nat)
    requires Texts(ran0, sent0, stmts) && Texts(ran, sent, stmts)
    requires from <= to <= |stmts| && ran == ran0 + Upto(from, to)
    ensures sent == sent0 + stmts[from..to]
  {
    assert forall i :: 0 <= i < |ran0| ==> ran[i] == ran0[i];
    assert forall i :: 0 <= i < to - from ==> ran[|ran0| + i] == Upto(from, to)[i];
  }

  lemma RanOneMore(ran: seq<nat>, sent: seq<string>, k: nat, stmts: seq<string>)
    requires Stairs(ran) && High(ran) <= |stmts| && Texts(ran, sent, stmts) && k <= High(ran) && k < |stmts|
    ensures Stairs(ran + [k]) && Texts(ran + [k], sent + [stmts[k]], stmts)
    ensures High(ran) <= High(ran + [k]) <= |stmts| && k < High(ran + [k])
  {
    HighAppend(ran, k);
    StairsAppend(ran, k);
  }

  /** The database under migration and the checkpoint table, as far as a contract phase sees them. */
  class World {
    var ran: seq<nat>        // index of every statement run on the server, in order
    var sent: seq<string>    // and its text
    var checkpoints: seq<CheckpointRow<nat>>  // STATEMENT_INDEX

    /** Nothing was skipped, and a checkpoint of any attempt only covers statements that have run. */
    ghost predicate Valid(phase: string, stmts: seq<string>)
      reads this
    {
      && Stairs(ran) && High(ran) <= |stmts|
      && Texts(ran, sent, stmts)
      && (forall i :: 0 <= i < |checkpoints| && checkpoints[i].phase == phase ==> checkpoints[i].payload < High(ran))
    }

    constructor ()
      ensures ran == [] && sent == [] && checkpoints == []
    {
      ran, sent, checkpoints := [], [], [];
    }

    method ExecDDL(index: nat, stmt: string, f: Fault) returns (ok: bool)
      modifies this`ran, this`sent
      ensures ok == f.NoFault?
      ensures ran == if f == Lost(false) then old(ran) else old(ran) + [index]
      ensures sent == if f == Lost(false) then old(sent) else old(sent) + [stmt]
    {
      if f != Lost(false) {
        ran, sent := ran + [index], sent + [stmt];
      }
      ok := f.NoFault?;
    }

    method InsertCheckpoint(row: CheckpointRow<nat>, f: Fault)
      modifies this`checkpoints
      ensures checkpoints == if f == Lost(false) then old(checkpoints) else old(checkpoints) + [row]
    {
      if f != Lost(false) {
        checkpoints := checkpoints + [row];
      }
    }
  }

  /** The statements the checkpoints of this attempt vouch for. */
  function Covered(rows: seq<CheckpointRow<nat>>, phase: string, attempt: nat): nat {
    var cp := LatestCheckpoint(rows, phase, attempt);
    if cp.Some? then cp.value.payload + 1 else 0
  }

  ghost predicate OthersKept(rows: seq<CheckpointRow<nat>>, rows': seq<CheckpointRow<nat>>, phase: string,
                             attempt: nat) {
    forall a :: a != attempt ==> Covered(rows', phase, a) == Covered(rows, phase, a)
  }

  lemma CoveredAppend(rows: seq<CheckpointRow<nat>>, r: CheckpointRow<nat>)
    ensures Covered(rows + [r], r.phase, r.attempt) == r.payload + 1
    ensures OthersKept(rows, rows + [r], r.phase, r.attempt)
  {
    CheckpointAppend(rows, r, r.phase, r.attempt);
    forall a | a != r.attempt
      ensures Covered(rows + [r], r.phase, a) == Covered(rows, r.phase, a)
    {
      CheckpointAppend(rows, r, r.phase, a);
    }
  }

  /** Every checkpoint insert that is reached succeeds. */
  ghost predicate Kept(env: seq<Turn>) {
    forall i :: 0 <= i < |env| ==> env[i].checkpoint == NoFault
  }

  /** The first n turns neither refuse a statement nor kill the process. */
  ghost predicate Undisturbed(env: seq<Turn>, n: int) {
    n <= |env| && forall i :: 0 <= i < n ==> env[i].ddl.NoFault? && !env[i].killed
  }

  /** How an execution that runs the statements [from, to) of n ends: with nil after the last, or at the first turn that
      refuses its statement or kills the process, or when the turns run out. */
  ghost predicate EndsAs(r: Result, env: seq<Turn>, from: nat, to: nat, n: nat) {
    match r
    case Ok => to == n && Undisturbed(env, n - from)
    case DdlError(k) =>
      && from <= k < n && k - from < |env| && Undisturbed(env, k - from) && env[k - from].ddl.Lost?
      && to == if env[k - from].ddl == Lost(true) then k + 1 else k
    case Killed =>
      || (from <= to < n && to - from == |env| && Undisturbed(env, |env|))
      || (from < to <= n && to - from <= |env| && Undisturbed(env, to - from - 1)
          && env[to - from - 1].ddl.NoFault? && env[to - from - 1].killed)
  }

  /** The turn of statement k decides whether the execution goes on after it. */
  lemma TurnDecides(stop: Option<Result>, env: seq<Turn>, from: nat, used: nat, k: nat, n: nat)
    requires used < |env| && k == from + used && k < n && Undisturbed(env, used)
    requires stop == Some(DdlError(k)) <==> env[used].ddl.Lost?
    requires stop == Some(Killed) <==> env[used].ddl.NoFault? && env[used].killed
    requires stop == None || stop == Some(DdlError(k)) || stop == Some(Killed)
    ensures stop.None? ==> Undisturbed(env, used + 1)
    ensures stop.Some? ==> EndsAs(stop.value, env, from, if env[used].ddl == Lost(false) then k else k + 1, n)
  {
  }

  class ContractExecutor {
    const phase: string
    const sql: string
    const attempt: nat

    constructor (phase: string, sql: string, attempt: nat)
      ensures this.phase == phase && this.sql == sql && this.attempt == attempt
    {
      this.phase, this.sql, this.attempt := phase, sql, attempt;
    }

    function ResumePoint(w: World): nat
      reads w
    {
      Covered(w.checkpoints, phase, attempt)
    }

    method SendStatement(w: World, k: nat, stmt: string, f: Fault) returns (ok: bool)
      requires w.Valid(phase, Statements(sql)) && k < |Statements(sql)| && stmt == Statements(sql)[k]
      requires k <= High(w.ran)
      modifies w`ran, w`sent
      ensures w.Valid(phase, Statements(sql)) && ok == f.NoFault?
      ensures w.ran == if f == Lost(false) then old(w.ran) else old(w.ran) + [k]
      ensures High(w.ran) >= old(High(w.ran)) && (ok ==> k + 1 <= High(w.ran))
    {
      RanOneMore(w.ran, w.sent, k, Statements(sql));
      ok := w.ExecDDL(k, stmt, f);
    }

    method MarkStatement(w: World, k: nat, f: Fault)
      requires w.Valid(phase, Statements(sql)) && k < High(w.ran)
      modifies w`checkpoints
      ensures w.Valid(phase, Statements(sql)) && OthersKept(old(w.checkpoints), w.checkpoints, phase, attempt)
      ensures w.checkpoints == if f == Lost(false) then old(w.checkpoints)
                               else old(w.checkpoints) + [CheckpointRow(phase, attempt, k)]
      ensures f == NoFault ==> ResumePoint(w) == k + 1
    {
      CoveredAppend(w.checkpoints, CheckpointRow(phase, attempt, k));
      w.InsertCheckpoint(CheckpointRow(phase, attempt, k), f);
    }

    /** ExecDDL and InsertCheckpoint of statement k; None means go on. */
    method RunStatement(w: World, k: nat, stmt: string, t: Turn) returns (stop: Option<Result>)
      requires w.Valid(phase, Statements(sql)) && k < |Statements(sql)| && stmt == Statements(sql)[k]
      requires k <= High(w.ran)
      modifies w
      ensures w.Valid(phase, Statements(sql)) && OthersKept(old(w.checkpoints), w.checkpoints, phase, attempt)
      ensures w.ran == if t.ddl == Lost(false) then old(w.ran) else old(w.ran) + [k]
      ensures High(w.ran) >= old(High(w.ran)) && (stop.None? ==> k + 1 <= High(w.ran))
      ensures stop == Some(DdlError(k)) <==> t.ddl.Lost?
      ensures stop == Some(Killed) <==> t.ddl.NoFault? && t.killed
      ensures stop == None || stop == Some(DdlError(k)) || stop == Some(Killed)
      ensures w.checkpoints == if stop.Some? || t.checkpoint == Lost(false) then old(w.checkpoints)
                               else old(w.checkpoints) + [CheckpointRow(phase, attempt, k)]
      ensures stop.None? && t.checkpoint == NoFault ==> ResumePoint(w) == k + 1
    {
      var ok := SendStatement(w, k, stmt, t.ddl);
      if !ok {
        return Some(DdlError(k));
      }
      if t.killed {
        return Some(Killed);
      }
      MarkStatement(w, k, t.checkpoint);
      return None;
    }

    /** Exactly what one execution has run: the statements from where this attempt's checkpoints end, or from 0 when
        there are none or they cannot be read. */
    ghost predicate Progressed(w: World, ran0: seq<nat>, cps0: seq<CheckpointRow<nat>>, from: nat, to: nat, kept: bool)
      reads w
    {
      && from <= to <= High(w.ran) && w.ran == ran0 + Upto(from, to)
      && OthersKept(cps0, w.checkpoints, phase, attempt)
      && (kept ==> ResumePoint(w) == to)
    }

    /** An execution that did not return nil: its last statement may lack a checkpoint. */
    ghost predicate CutOff(w: World, ran0: seq<nat>, cps0: seq<CheckpointRow<nat>>, from: nat, to: nat, kept: bool)
      reads w
    {
      && from <= to <= |Statements(sql)| && w.ran == ran0 + Upto(from, to)
      && OthersKept(cps0, w.checkpoints, phase, attempt)
      && (kept ==> ResumePoint(w) <= to <= ResumePoint(w) + 1 && ResumePoint(w) < |Statements(sql)|)
    }

    /** The next statement of an execution. */
    method Next(w: World, k: nat, stmt: string, env: seq<Turn>, used: nat,
                ghost ran0: seq<nat>, ghost cps0: seq<CheckpointRow<nat>>, ghost from: nat, ghost kept: bool)
      returns (stop: Option<Result>, ghost to: nat)
      requires w.Valid(phase, Statements(sql)) && k < |Statements(sql)| && stmt == Statements(sql)[k]
      requires used < |env| && k == from + used && Undisturbed(env, used)
      requires Progressed(w, ran0, cps0, from, k, kept) && (kept ==> Kept(env))
      modifies w
      ensures w.Valid(phase, Statements(sql)) && stop != Some(Ok)
      ensures stop.None? ==> Progressed(w, ran0, cps0, from, k + 1, kept) && Undisturbed(env, used + 1)
      ensures stop.Some? ==>
                CutOff(w, ran0, cps0, from, to, kept) && EndsAs(stop.value, env, from, to, |Statements(sql)|)
    {
      stop := RunStatement(w, k, stmt, env[used]);
      to := if env[used].ddl == Lost(false) then k else k + 1;
      TurnDecides(stop, env, from, used, k, |Statements(sql)|);
      UptoAppend(ran0, from, k);
    }

    /** One piece of the text: blank, already covered, or the next statement. */
    method RunPiece(w: World, pieces: seq<string>, i: nat, realIdx: nat, resumeFrom: nat, env: seq<Turn>, used: nat,
                    ghost ran0: seq<nat>, ghost cps0: seq<CheckpointRow<nat>>, ghost kept: bool, ghost to: nat)
      returns (stop: Option<Result>, realIdx': nat, used': nat, ghost to': nat)
      requires w.Valid(phase, Statements(sql)) && pieces == Split(sql) && i < |pieces| && used <= |env|
      requires realIdx == |NonBlank(pieces[..i])| && to == Most(realIdx, resumeFrom) && (kept ==> Kept(env))
      requires Progressed(w, ran0, cps0, resumeFrom, to, kept) && to == resumeFrom + used && Undisturbed(env, used)
      modifies w
      ensures w.Valid(phase, Statements(sql)) && used' <= |env| && stop != Some(Ok)
      ensures stop.None? ==>
                && realIdx' == |NonBlank(pieces[..i + 1])| && to' == Most(realIdx', resumeFrom)
                && Progressed(w, ran0, cps0, resumeFrom, to', kept)
                && to' == resumeFrom + used' && Undisturbed(env, used')
      ensures stop.Some? ==> CutOff(w, ran0, cps0, resumeFrom, to', kept)
                             && EndsAs(stop.value, env, resumeFrom, to', |Statements(sql)|)
    {
      stop, realIdx', used', to' := None, realIdx, used, to;
      NonBlankAt(pieces, i);
      var stmt := Trim(pieces[i]);
      if stmt == "" {
        return;
      }
      if realIdx < resumeFrom {
        realIdx' := realIdx + 1;
        return;
      }
      if used == |env| {
        stop := Some(Killed);
        return;
      }
      stop, to' := Next(w, realIdx, stmt, env, used, ran0, cps0, resumeFrom, kept);
      if stop.None? {
        used', realIdx', to' := used + 1, realIdx + 1, realIdx + 1;
      }
    }

    /** The loop over the pieces of the text. */
    method RunPieces(w: World, pieces: seq<string>, resumeFrom: nat, env: seq<Turn>,
                     ghost ran0: seq<nat>, ghost cps0: seq<CheckpointRow<nat>>, ghost kept: bool)
      returns (r: Result, ghost to: nat)
      requires w.Valid(phase, Statements(sql)) && pieces == Split(sql)
      requires Progressed(w, ran0, cps0, resumeFrom, resumeFrom, kept) && (kept ==> Kept(env))
      modifies w
      ensures w.Valid(phase, Statements(sql))
      ensures if r == Ok then to == |Statements(sql)| && Progressed(w, ran0, cps0, resumeFrom, to, kept)
              else CutOff(w, ran0, cps0, resumeFrom, to, kept)
      ensures EndsAs(r, env, resumeFrom, to, |Statements(sql)|)
    {
      var realIdx: nat, used: nat := 0, 0;
      to := resumeFrom;
      for i := 0 to |pieces|
        invariant w.Valid(phase, Statements(sql)) && used <= |env|
        invariant realIdx == |NonBlank(pieces[..i])| && to == Most(realIdx, resumeFrom)
        invariant Progressed(w, ran0, cps0, resumeFrom, to, kept)
        invariant to == resumeFrom + used && Undisturbed(env, used)
      {
        var stop;
        stop, realIdx, used, to := RunPiece(w, pieces, i, realIdx, resumeFrom, env, used, ran0, cps0, kept, to);
        if stop.Some? {
          return stop.value, to;
        }
      }
      assert pieces[..|pieces|] == pieces;
      return Ok, to;
    }

    /** `Execute`. A failed checkpoint read is ignored, and so restarts from the first statement. It runs exactly the
        statements `from`, ..., `to` - 1, where `from` is where this attempt's own checkpoints end. */
    method Execute(w: World, readFails: bool, env: seq<Turn>) returns (r: Result, ghost from: nat, ghost to: nat)
      requires w.Valid(phase, Statements(sql))
      modifies w
      ensures w.Valid(phase, Statements(sql))
      ensures from == (if readFails then 0 else old(ResumePoint(w))) <= to <= |Statements(sql)|
      ensures w.ran == old(w.ran) + Upto(from, to) && w.sent == old(w.sent) + Statements(sql)[from..to]
      ensures OthersKept(old(w.checkpoints), w.checkpoints, phase, attempt)
      ensures EndsAs(r, env, from, to, |Statements(sql)|)
      ensures r == Ok <==> Undisturbed(env, |Statements(sql)| - from)
      ensures r == Ok ==> to == |Statements(sql)| && AllRan(w.ran, |Statements(sql)|)
      ensures Kept(env) && !readFails ==>
                if r == Ok then ResumePoint(w) == to
                else ResumePoint(w) <= to <= ResumePoint(w) + 1 && ResumePoint(w) < |Statements(sql)|
    {
      LatestCheckpointIsRow(w.checkpoints, phase, attempt);
      ghost var ran0, sent0 := w.ran, w.sent;
      var resumeFrom := if readFails then 0 else Covered(w.checkpoints, phase, attempt);
      from := resumeFrom;
      r, to := RunPieces(w, Split(sql), resumeFrom, env, w.ran, w.checkpoints, Kept(env) && !readFails);
      TextsFollow(ran0, sent0, w.ran, w.sent, Statements(sql), from, to);
      HighIsRan(w.ran);
    }
  }

  // ----- Any number of executions

  /** One execution: under which attempt, whether the checkpoint read fails, and what happens while it runs. */
  datatype RunInput = RunInput(attempt: nat, readFails: bool, env: seq<Turn>)

  function Attempts(runs: seq<RunInput>): set<nat> {
    set i | 0 <= i < |runs| :: runs[i].attempt
  }

  ghost predicate Reliable(runs: seq<RunInput>) {
    forall i :: 0 <= i < |runs| ==> Kept(runs[i].env) && !runs[i].readFails
  }

  /** At most n - 1 of the statements an attempt's checkpoints vouch for. */
  function Capped(covered: nat, n: nat): nat
    requires n > 0
  {
    if covered < n then covered else n - 1
  }

  /** ... over all attempts below m. */
  function Vouched(rows: seq<CheckpointRow<nat>>, phase: string, n: nat, m: nat): nat
    requires n > 0
  {
    if m == 0 then 0 else Vouched(rows, phase, n, m - 1) + Capped(Covered(rows, phase, m - 1), n)
  }

  lemma {:induction false} VouchedChange(rows: seq<CheckpointRow<nat>>, rows': seq<CheckpointRow<nat>>, phase: string,
                                         n: nat, m: nat, attempt: nat)
    requires n > 0 && OthersKept(rows, rows', phase, attempt)
    ensures Vouched(rows', phase, n, m) - Vouched(rows, phase, n, m)
         == if attempt < m
            then Capped(Covered(rows', phase, attempt), n) - Capped(Covered(rows, phase, attempt), n) else 0
  {
    if m > 0 {
      VouchedChange(rows, rows', phase, n, m - 1, attempt);
    }
  }

  lemma {:induction false} VouchedBelow(rows: seq<CheckpointRow<nat>>, phase: string, n: nat, m: nat,
                                        attempts: set<nat>)
    requires n > 0 && forall a: nat :: a !in attempts ==> Covered(rows, phase, a) == 0
    ensures Vouched(rows, phase, n, m) <= (n - 1) * |set a | a in attempts && a < m|
    decreases m
  {
    if m > 0 {
      VouchedBelow(rows, phase, n, m - 1, attempts);
      var below := set a | a in attempts && a < m - 1;
      var upto := set a | a in attempts && a < m;
      assert upto == if m - 1 in attempts then below + {m - 1} else below;
      assert (n - 1) * (|below| + 1) == (n - 1) * |below| + (n - 1);
    }
  }

  lemma VouchedBound(rows: seq<CheckpointRow<nat>>, phase: string, n: nat, m: nat, attempts: set<nat>)
    requires n > 0 && forall a: nat :: a !in attempts ==> Covered(rows, phase, a) == 0
    ensures Vouched(rows, phase, n, m) <= (n - 1) * |attempts|
  {
    VouchedBelow(rows, phase, n, m, attempts);
    var below := set a | a in attempts && a < m;
    assert attempts == below + (attempts - below);
    MulMonotone(|below|, |attempts|, n - 1);
  }

  function Above(runs: seq<RunInput>): nat {
    if runs == [] then 0
    else if Last(runs).attempt >= Above(runs[..|runs| - 1]) then Last(runs).attempt + 1
    else Above(runs[..|runs| - 1])
  }

  lemma {:induction false} AllBelow(runs: seq<RunInput>)
    ensures forall i :: 0 <= i < |runs| ==> runs[i].attempt < Above(runs)
  {
    if runs != [] {
      AllBelow(runs[..|runs| - 1]);
    }
  }

  /** One execution's statements are paid for by what its attempt's checkpoints vouch for afterwards, and one more. */
  lemma ExecutionCost(from: nat, to: nat, covered: nat, ok: bool, n: nat)
    requires n > 0 && from <= to <= n && (ok ==> to == n)
    requires if ok then covered == to else covered <= to <= covered + 1 && covered < n
    ensures (to - from) as int <= Capped(covered, n) - Capped(from, n) + 1
  {
  }

  /** The accounts after some executions: who has checkpoints, and how many statements have been run. */
  ghost predicate Accounted(ran: seq<nat>, cps: seq<CheckpointRow<nat>>, phase: string, runs: seq<RunInput>,
                            n: nat, m: nat) {
    && (forall a: nat :: a !in Attempts(runs) ==> Covered(cps, phase, a) == 0)
    && (n > 0 && Reliable(runs) ==> |ran| <= Vouched(cps, phase, n, m) + |runs|)
  }

  lemma ReliableStep(runs: seq<RunInput>, run: RunInput)
    requires Reliable(runs + [run])
    ensures Reliable(runs) && Kept(run.env) && !run.readFails
  {
    assert (runs + [run])[|runs|] == run;
    assert forall i :: 0 <= i < |runs| ==> (runs + [run])[i] == runs[i];
  }

  lemma AttemptsStep(runs: seq<RunInput>, run: RunInput)
    ensures Attempts(runs + [run]) == Attempts(runs) + {run.attempt}
  {
    assert (runs + [run])[|runs|] == run;
    forall a | a in Attempts(runs)
      ensures a in Attempts(runs + [run])
    {
      var j :| 0 <= j < |runs| && runs[j].attempt == a;
      assert (runs + [run])[j].attempt == a;
    }
  }

  lemma AccountedStep(ran: seq<nat>, cps: seq<CheckpointRow<nat>>, ran': seq<nat>, cps': seq<CheckpointRow<nat>>,
                      phase: string, runs: seq<RunInput>, run: RunInput, n: nat, m: nat, from: nat, to: nat, ok: bool)
    requires Accounted(ran, cps, phase, runs, n, m) && run.attempt < m
    requires from <= to <= n && |ran'| == |ran| + to - from && OthersKept(cps, cps', phase, run.attempt)
    requires ok ==> to == n
    requires Kept(run.env) && !run.readFails ==>
               var c := Covered(cps', phase, run.attempt);
               && from == Covered(cps, phase, run.attempt)
               && if ok then c == to else c <= to <= c + 1 && c < n
    ensures Accounted(ran', cps', phase, runs + [run], n, m)
  {
    AttemptsStep(runs, run);
    if n > 0 && Reliable(runs + [run]) {
      ReliableStep(runs, run);
      ExecutionCost(from, to, Covered(cps', phase, run.attempt), ok, n);
      VouchedChange(cps, cps', phase, n, m, run.attempt);
    }
  }

  /** The last n statements run are all of them, from the first. */
  ghost predicate EndsWithAll(ran: seq<nat>, n: nat) {
    n <= |ran| && ran[|ran| - n..] == Upto(0, n)
  }

  /** One execution with its accounts; an attempt that has not run before starts from the first statement. */
  method RunOnce(w: World, phase: string, sql: string, run: RunInput, ghost runs: seq<RunInput>, ghost n: nat,
                 ghost m: nat)
    returns (r: Result)
    requires w.Valid(phase, Statements(sql)) && n == |Statements(sql)| && run.attempt < m
    requires Accounted(w.ran, w.checkpoints, phase, runs, n, m)
    modifies w
    ensures w.Valid(phase, Statements(sql)) && (r == Ok ==> AllRan(w.ran, n))
    ensures Accounted(w.ran, w.checkpoints, phase, runs + [run], n, m)
    ensures r == Ok && run.attempt !in Attempts(runs) ==> EndsWithAll(w.ran, n)
  {
    ghost var ran0, cps0 := w.ran, w.checkpoints;
    var executor := new ContractExecutor(phase, sql, run.attempt);
    ghost var from, to;
    r, from, to := executor.Execute(w, run.readFails, run.env);
    AccountedStep(ran0, cps0, w.ran, w.checkpoints, phase, runs, run, n, m, from, to, r == Ok);
  }

  lemma {:induction false} VouchedNothing(phase: string, n: nat, m: nat)
    ensures n > 0 ==> Vouched([], phase, n, m) == 0
  {
    if m > 0 {
      VouchedNothing(phase, n, m - 1);
    }
  }

  /** Any number of executions, each cut off anywhere, under any attempts: the same one, or, as the runner does it, a
      new one each. No statement ever runs before one of its predecessors, and if the last returns nil all have run.
      With reliable checkpoints every attempt repeats at most one statement for each of its executions but the first;
      but a new attempt has no checkpoint, and so runs every statement again from the first. */
  method RunUntilNil(w: World, phase: string, sql: string, runs: seq<RunInput>) returns (r: Result)
    requires w.ran == [] && w.sent == [] && w.checkpoints == []
    modifies w
    ensures Stairs(w.ran) && |w.sent| == |w.ran|
    ensures forall i :: 0 <= i < |w.ran| ==>
              w.ran[i] < |Statements(sql)| && w.sent[i] == Statements(sql)[w.ran[i]]
    ensures r == Ok ==> AllRan(w.ran, |Statements(sql)|)
    ensures Statements(sql) != [] && Reliable(runs) ==>
              |w.ran| <= (|Statements(sql)| - 1) * |Attempts(runs)| + |runs|
    ensures r == Ok && runs != [] && Last(runs).attempt !in Attempts(runs[..|runs| - 1]) ==>
              EndsWithAll(w.ran, |Statements(sql)|)
  {
    r := Killed;
    ghost var n, m := |Statements(sql)|, Above(runs);
    AllBelow(runs);
    VouchedNothing(phase, n, m);
    for i := 0 to |runs|
      invariant w.Valid(phase, Statements(sql)) && (i == 0 ==> r == Killed)
      invariant r == Ok ==> AllRan(w.ran, n)
      invariant Accounted(w.ran, w.checkpoints, phase, runs[..i], n, m)
      invariant r == Ok && runs[i - 1].attempt !in Attempts(runs[..i - 1]) ==> EndsWithAll(w.ran, n)
    {
      assert runs[..i + 1] == runs[..i] + [runs[i]];
      r := RunOnce(w, phase, sql, runs[i], runs[..i], n, m);
    }
    assert runs[..|runs|] == runs;
    if n > 0 {
      VouchedBound(w.checkpoints, phase, n, m, Attempts(runs));
    }
  }
}
