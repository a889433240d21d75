/** Runs that do not overlap, of a migration in the documented order: contract executes only on a table without
    NULLs. */
module EndToEnd {
  import opened Store
  import opened Protocol
  import opened HistorySafety
  import opened NonOverlap

  import Gate
  import Table

  /** The documented order: expand before gate before contract. */
  ghost predicate WellOrdered(c: Config) {
    && Distinct(c)
    && (forall i, j :: 0 <= i < |c| && 0 <= j < |c| && c[i].name == "expand" && c[j].name == "gate" ==> i < j)
    && (forall j :: 0 <= j < |c| && c[j].name == "contract" ==> exists i :: 0 <= i < j && c[i].name == "gate")
  }

  /** The process is inside a gate, past its passing poll. */
  predicate PastPoll(c: Config, p: Process) {
    && p.idx < |c| && c[p.idx].name == "gate"
    && ((p.pc == Executing && p.sawZero) || ((p.pc == Guard || p.pc == InsertTerminal) && p.result == ExecOk))
  }

  /** A gate has passed: its COMPLETED is in, or it is about to be. A gate that crashes, or loses that insert, after its
      passing poll has not. */
  ghost predicate Passed(c: Config, s: State) {
    CompletedNow(s.db.history, "gate") || exists q :: q in s.procs && PastPoll(c, s.procs[q])
  }

  /** Once a gate has passed no other client leaves a NULL. */
  ghost predicate OrderlyStep(c: Config, s: State, l: Label) {
    SerialStep(s, l) && (l.Outside? && Passed(c, s) ==> l.n == 0)
  }

  ghost predicate OrderlyRun(c: Config, s: State, ls: seq<Label>)
    decreases |ls|
  {
    ls == [] || (OrderlyStep(c, Exec(c, s, ls[..|ls| - 1]), Last(ls)) && OrderlyRun(c, s, ls[..|ls| - 1]))
  }

  /** A gate that has completed is one of the file's, and the phases before it have completed too. */
  ghost predicate GateDone(c: Config, h: seq<PhaseEvent>) {
    CompletedNow(h, "gate") ==> exists g :: 0 <= g < |c| && c[g].name == "gate" && PrefixCompleted(c, h, g)
  }

  ghost predicate Orderly(c: Config, s: State) {
    Serial(c, s) && GateDone(c, s.db.history) && (Passed(c, s) ==> s.nulls == 0)
  }

  lemma AppendKeepsGateDone(c: Config, h: seq<PhaseEvent>, e: PhaseEvent, idx: nat)
    requires GateDone(c, h) && idx < |c| && e.phase == c[idx].name && PrefixCompleted(c, h, idx)
    ensures GateDone(c, h + [e])
  {
    CompletedAppend(h, e, "gate");
    PrefixStays(c, h, e, idx);
    if g :| CompletedNow(h, "gate") && 0 <= g < |c| && c[g].name == "gate" && PrefixCompleted(c, h, g) {
      PrefixStays(c, h, e, g);
    }
  }

  /** One process moves, and only a process past its poll can make the gate pass. */
  lemma MoveKeepsOrderly(c: Config, s: State, s': State, pid: ProcessId, p': Process)
    requires Orderly(c, s) && Serial(c, s') && GateDone(c, s'.db.history) && s'.nulls == s.nulls
    requires pid in s.procs && s'.procs == s.procs[pid := p'] && (PastPoll(c, p') ==> PastPoll(c, s.procs[pid]))
    requires CompletedNow(s'.db.history, "gate") ==> CompletedNow(s.db.history, "gate") || PastPoll(c, s.procs[pid])
    ensures Orderly(c, s')
  {
    if q :| q in s'.procs && PastPoll(c, s'.procs[q]) {
      assert q in s.procs && PastPoll(c, s.procs[q]);
    }
  }

  lemma InsertedPastPoll(pc: PhaseConfig, c: Config, now: int, pid: ProcessId, p: Process, r: Reply)
    requires p.idx < |c| && pc == c[p.idx] && Inserting(p.pc)
    ensures !PastPoll(c, AfterInsert(pc, now, p, r))
    ensures pc.name == "gate" && PendingRow(pc.name, pid, p).kind == Completed ==> PastPoll(c, p)
  {
  }

  lemma InsertKeepsOrderly(c: Config, s: State, pid: ProcessId, p: Process, f: Fault)
    requires Orderly(c, s) && pid in s.procs && p == s.procs[pid] && p.idx < |c| && Inserting(p.pc)
    requires Serial(c, InsertStep(c[p.idx], s, pid, p, f))
    ensures Orderly(c, InsertStep(c[p.idx], s, pid, p, f))
  {
    var e := PendingRow(c[p.idx].name, pid, p);
    CompletedAppend(s.db.history, e, "gate");
    AppendKeepsGateDone(c, s.db.history, e, p.idx);
    var r := InsertEvent(s.db, e, f).1;
    InsertedPastPoll(c[p.idx], c, s.now, pid, p, r);
    MoveKeepsOrderly(c, s, InsertStep(c[p.idx], s, pid, p, f), pid, AfterInsert(c[p.idx], s.now, p, r));
  }

  lemma MovedPastPoll(c: Config, s: State, pid: ProcessId, p: Process, f: Fault)
    requires p.idx < |c| && !Inserting(p.pc)
    ensures PastPoll(c, Moved(c, s, pid, p, f)) ==> PastPoll(c, p)
    ensures DoStep(c, s, pid, p, f).db.history == s.db.history && DoStep(c, s, pid, p, f).nulls == s.nulls
  {
  }

  lemma DoKeepsOrderly(c: Config, s: State, pid: ProcessId, p: Process, f: Fault)
    requires Orderly(c, s) && pid in s.procs && p == s.procs[pid] && p.idx < |c|
    requires Serial(c, DoStep(c, s, pid, p, f))
    ensures Orderly(c, DoStep(c, s, pid, p, f))
  {
    if Inserting(p.pc) {
      InsertKeepsOrderly(c, s, pid, p, f);
    } else {
      DoMoves(c, s, pid, p, f);
      MovedPastPoll(c, s, pid, p, f);
      MoveKeepsOrderly(c, s, DoStep(c, s, pid, p, f), pid, Moved(c, s, pid, p, f));
    }
  }

  lemma GateFollowsExpand(c: Config, h: seq<PhaseEvent>, j: nat)
    requires WellOrdered(c) && GateDone(c, h) && j < |c| && c[j].name == "expand"
    ensures CompletedNow(h, "gate") ==> CompletedNow(h, "expand")
  {
    if CompletedNow(h, "gate") {
      var g :| 0 <= g < |c| && c[g].name == "gate" && PrefixCompleted(c, h, g);
      assert j < g;
    }
  }

  lemma OnlyTheLiveOneIsPastPoll(c: Config, s: State, pid: ProcessId)
    requires Serial(c, s) && pid in s.procs && Live(s.procs[pid])
    ensures forall q :: q in s.procs && PastPoll(c, s.procs[q]) ==> q == pid
  {
    assert forall q :: q in s.procs && PastPoll(c, s.procs[q]) ==> Live(s.procs[q]);
  }

  /** Once a gate has passed, expand has completed and so is not being run. */
  lemma ExpandIsOver(c: Config, s: State, pid: ProcessId, p: Process)
    requires WellOrdered(c) && Orderly(c, s) && pid in s.procs && p == s.procs[pid] && p.idx < |c|
    requires (p.pc == Executing || p.pc == RollingBack) && c[p.idx].name == "expand"
    ensures !Passed(c, s)
  {
    GateFollowsExpand(c, s.db.history, p.idx);
    OnlyTheLiveOneIsPastPoll(c, s, pid);
  }

  lemma WorkKeepsOrderly(c: Config, s: State, pid: ProcessId, p: Process, n: nat)
    requires WellOrdered(c) && Orderly(c, s) && pid in s.procs && p == s.procs[pid] && p.idx < |c|
    requires Serial(c, WorkStep(c[p.idx].name, s, pid, p, n))
    ensures Orderly(c, WorkStep(c[p.idx].name, s, pid, p, n))
  {
    var s' := WorkStep(c[p.idx].name, s, pid, p, n);
    if c[p.idx].name == "expand" && (p.pc == Executing || p.pc == RollingBack) {
      ExpandIsOver(c, s, pid, p);
      assert s' == s.(nulls := n);
    } else if c[p.idx].name != "gate" {
      assert s' == s.(nulls := s'.nulls);
    }
  }

  /** The ticker, a crash, and the end of Execute. */
  lemma OtherActionKeepsOrderly(c: Config, s: State, pid: ProcessId, a: Action)
    requires Orderly(c, s) && pid in s.procs && !a.Do? && !a.Work? && !a.Checkpoint?
    requires Serial(c, Apply(c, s, Act(pid, a)))
    ensures Orderly(c, Apply(c, s, Act(pid, a)))
  {
    var s' := Apply(c, s, Act(pid, a));
    OtherActionMoves(c, s, pid, a);
    assert s'.nulls == s.nulls;
    MoveKeepsOrderly(c, s, s', pid, s'.procs[pid]);
  }

  lemma ActionKeepsOrderly(c: Config, s: State, pid: ProcessId, a: Action)
    requires WellOrdered(c) && Orderly(c, s) && pid in s.procs && s.procs[pid].idx < |c|
    requires Serial(c, Apply(c, s, Act(pid, a)))
    ensures Orderly(c, Apply(c, s, Act(pid, a)))
  {
    if a.Do? {
      DoKeepsOrderly(c, s, pid, s.procs[pid], a.fault);
    } else if a.Work? {
      WorkKeepsOrderly(c, s, pid, s.procs[pid], a.n);
    } else if !a.Checkpoint? {
      OtherActionKeepsOrderly(c, s, pid, a);
    }
  }

  /** A start, the clock, gc and other clients: only the NULL count can matter. */
  lemma WorldKeepsOrderly(c: Config, s: State, l: Label)
    requires Orderly(c, s) && OrderlyStep(c, s, l) && !l.Act? && Serial(c, Apply(c, s, l))
    ensures Orderly(c, Apply(c, s, l))
  {
    var s' := Apply(c, s, l);
    assert s'.db.history == s.db.history;
    if l.Start? && l.pid !in s.procs {
      assert s'.procs == s.procs[l.pid := NewProcess(c, l.resume)] && s'.nulls == s.nulls;
      assert !PastPoll(c, NewProcess(c, l.resume));
      assert forall q :: q in s'.procs && PastPoll(c, s'.procs[q]) ==> q in s.procs && PastPoll(c, s.procs[q]);
    } else {
      assert s'.procs == s.procs;
    }
  }

  lemma StepKeepsOrderly(c: Config, s: State, l: Label)
    requires WellOrdered(c) && Orderly(c, s) && OrderlyStep(c, s, l)
    ensures Orderly(c, Apply(c, s, l))
  {
    StepKeepsSerial(c, s, l);
    match l
    case Act(pid, a) =>
      if pid in s.procs && s.procs[pid].idx < |c| {
        ActionKeepsOrderly(c, s, pid, a);
      } else {
        assert Apply(c, s, l) == s;
      }
    case _ => WorldKeepsOrderly(c, s, l);
  }

  lemma {:induction false} OrderlyInEveryRun(c: Config, nulls: nat, ls: seq<Label>)
    requires WellOrdered(c) && OrderlyRun(c, Init(nulls), ls)
    ensures Orderly(c, Exec(c, Init(nulls), ls))
  {
    if ls != [] {
      OrderlyInEveryRun(c, nulls, ls[..|ls| - 1]);
      StepKeepsOrderly(c, Exec(c, Init(nulls), ls[..|ls| - 1]), Last(ls));
    }
  }

  /** Whenever contract is executing a statement, no row is left to fill. */
  lemma ContractSeesNoNulls(c: Config, nulls: nat, ls: seq<Label>, pid: ProcessId)
    requires WellOrdered(c) && OrderlyRun(c, Init(nulls), ls)
    requires var s := Exec(c, Init(nulls), ls);
             pid in s.procs && s.procs[pid].pc == Executing && s.procs[pid].idx < |c|
             && c[s.procs[pid].idx].name == "contract"
    ensures Exec(c, Init(nulls), ls).nulls == 0
  {
    OrderlyInEveryRun(c, nulls, ls);
    var s := Exec(c, Init(nulls), ls);
    var i :| 0 <= i < s.procs[pid].idx && c[i].name == "gate";
    assert CompletedNow(s.db.history, c[i].name);
  }

  // ----- The gate's promise, from its own loop

  /** The gate's query counts the NULL rows of the table as it is when the query runs. */
  ghost predicate CountsNulls(env: nat -> Gate.Turn, tables: nat -> Table.Rows) {
    forall n: nat :: env(n).reply.Value? ==> env(n).reply.v == |Table.Nulls(tables(n))|
  }

  /** What FinishStep asks of a gate is what its polling loop delivers: with an expected count of 0 it returns nil if
      and only if some poll was of a table without NULL rows, and then that poll was its last. */
  lemma PassedGateSawNoNulls(env: nat -> Gate.Turn, tables: nat -> Table.Rows, r: Gate.Outcome, end: int,
                             trace: seq<Gate.Query>, start: int, deadline: int, poll: nat, slack: nat)
    requires Gate.Finished(r, end, trace, env, start, deadline, 0, poll, slack) && CountsNulls(env, tables)
    ensures r == Gate.Passed ==> trace != [] && Table.Nulls(tables(|trace| - 1)) == {}
    ensures r == Gate.Passed
       <==> exists i :: 0 <= i < |trace| && trace[i].reply.Value? && Table.Nulls(tables(i)) == {}
  {
    Gate.WitnessedReplies(r, end, trace, env, start);
    Gate.PassesOnExpectedReadOnly(trace, r, 0, poll);
    forall i | 0 <= i < |trace| && trace[i].reply.Value?
      ensures trace[i].reply == Gate.Value(0) <==> Table.Nulls(tables(i)) == {}
    {
      assert env(i).reply.v == |Table.Nulls(tables(i))|;
    }
    if r == Gate.Passed {
      assert trace[|trace| - 1].reply == Gate.Value(0);
    }
  }
}
