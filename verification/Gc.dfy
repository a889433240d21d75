/** `phasedb gc`: which heartbeats the correlated DELETE removes, on the histories that runs can produce. */
module Gc {
  import opened Store
  import opened Protocol
  import opened HistorySafety
  import opened OnePhaseRuns

  /** The attempt is between its STARTED and its terminal event. */
  ghost predicate OpenAttempt(h: seq<PhaseEvent>, phase: string, attempt: nat) {
    |Rows(h, phase, attempt)| == 1
  }

  ghost predicate HasOpenAttempt(h: seq<PhaseEvent>, phase: string) {
    exists a: nat :: OpenAttempt(h, phase, a)
  }

  /** The DELETE's subquery without its "later ID" clause. */
  ghost predicate StartedWithoutTerminal(h: seq<PhaseEvent>, phase: string) {
    exists i :: 0 <= i < |h| && h[i].phase == phase && h[i].kind == Started
                && forall j :: 0 <= j < |h| && h[j].phase == phase && h[j].attempt == h[i].attempt ==>
                     !h[j].kind.IsTerminal()
  }

  lemma OnlyRow(h: seq<PhaseEvent>, phase: string, attempt: nat, j: nat)
    requires OpenAttempt(h, phase, attempt) && j < |h| && h[j].phase == phase && h[j].attempt == attempt
    ensures h[j] == Rows(h, phase, attempt)[0]
  {
    RowsMember(h, phase, attempt, h[j]);
  }

  lemma OpenIsStarted(h: seq<PhaseEvent>, phase: string, attempt: nat)
    requires AttemptGrammar(Rows(h, phase, attempt)) && OpenAttempt(h, phase, attempt)
    ensures StartedWithoutTerminal(h, phase)
  {
    var row := Rows(h, phase, attempt)[0];
    RowsMember(h, phase, attempt, row);
    var i :| 0 <= i < |h| && h[i] == row;
    forall j | 0 <= j < |h| && h[j].phase == phase && h[j].attempt == h[i].attempt
      ensures !h[j].kind.IsTerminal()
    {
      OnlyRow(h, phase, attempt, j);
    }
    assert h[i].phase == phase && h[i].kind == Started;
  }

  lemma WithoutTerminalIsRunning(h: seq<PhaseEvent>, phase: string)
    requires StartedWithoutTerminal(h, phase)
    ensures StillRunning(h, phase)
  {
  }

  /** A row's position among the rows of its attempt follows its ID. */
  lemma {:induction false} RowsKeepIdOrder(h: seq<PhaseEvent>, phase: string, attempt: nat, i: nat)
    requires i < |h| && h[i].phase == phase && h[i].attempt == attempt
    ensures var rows := Rows(h, phase, attempt);
            rows != [] && (h[i] != Last(rows) ==> exists j :: i < j < |h| && h[j] == Last(rows)
                                                    && h[j].phase == phase && h[j].attempt == attempt)
  {
    var front := h[..|h| - 1];
    if i < |front| {
      assert front[i] == h[i];
      RowsKeepIdOrder(front, phase, attempt, i);
      if Last(h).phase == phase && Last(h).attempt == attempt {
        assert h[|h| - 1] == Last(Rows(h, phase, attempt));
      } else if h[i] != Last(Rows(h, phase, attempt)) {
        var j :| i < j < |front| && front[j] == Last(Rows(front, phase, attempt))
                 && front[j].phase == phase && front[j].attempt == attempt;
        assert h[j] == front[j];
      }
    }
  }

  /** A STARTED row whose attempt has a second row is followed, at a later ID, by a terminal one. */
  lemma ClosedHasLaterTerminal(c: Config, h: seq<PhaseEvent>, i: nat)
    requires HistoryOk(c, h) && i < |h| && h[i].kind == Started && !OpenAttempt(h, h[i].phase, h[i].attempt)
    ensures exists j :: i < j < |h| && h[j].phase == h[i].phase && h[j].attempt == h[i].attempt
                        && h[j].kind.IsTerminal()
  {
    RowsKeepIdOrder(h, h[i].phase, h[i].attempt, i);
    var rows := Rows(h, h[i].phase, h[i].attempt);
    assert AttemptGrammar(rows);
    assert Last(rows).kind.IsTerminal();
  }

  /** On every reachable history the DELETE keeps exactly the phases with an open attempt, and the
      "later ID" clause changes nothing. */
  lemma SubqueryMeansOpen(c: Config, h: seq<PhaseEvent>, phase: string)
    requires HistoryOk(c, h)
    ensures StillRunning(h, phase) <==> HasOpenAttempt(h, phase)
    ensures StillRunning(h, phase) <==> StartedWithoutTerminal(h, phase)
  {
    if a: nat :| OpenAttempt(h, phase, a) {
      OpenIsStarted(h, phase, a);
      WithoutTerminalIsRunning(h, phase);
    } else {
      forall i | 0 <= i < |h| && h[i].phase == phase && h[i].kind == Started
        ensures exists j :: i < j < |h| && h[j].phase == phase && h[j].attempt == h[i].attempt && h[j].kind.IsTerminal()
      {
        ClosedHasLaterTerminal(c, h, i);
      }
    }
  }

  lemma {:induction false} DeleteFilters(beats: seq<HeartbeatRow>, h: seq<PhaseEvent>, r: HeartbeatRow)
    ensures multiset(DeleteHeartbeats(beats, h))[r] == if StillRunning(h, r.phase) then multiset(beats)[r] else 0
  {
    if beats != [] {
      DeleteFilters(beats[1..], h, r);
      assert beats == [beats[0]] + beats[1..];
    }
  }

  /** Each row is judged on its own, and those that stay keep their order. */
  lemma {:induction false} GcKeepsOrder(a: seq<HeartbeatRow>, b: seq<HeartbeatRow>, h: seq<PhaseEvent>)
    ensures DeleteHeartbeats(a + b, h) == DeleteHeartbeats(a, h) + DeleteHeartbeats(b, h)
  {
    if a == [] {
      assert a + b == b;
    } else {
      assert (a + b)[1..] == a[1..] + b;
      GcKeepsOrder(a[1..], b, h);
    }
  }

  /** gc at any point of any run: every heartbeat of a phase with an open attempt stays, every other one goes. */
  lemma GcIsExact(c: Config, nulls: nat, ls: seq<Label>, r: HeartbeatRow)
    ensures var before := Exec(c, Init(nulls), ls);
            var after := Apply(c, before, Gc);
            && after == before.(db := before.db.(heartbeats := after.db.heartbeats))
            && multiset(after.db.heartbeats)[r]
            == if HasOpenAttempt(before.db.history, r.phase) then multiset(before.db.heartbeats)[r] else 0
  {
    SafeInEveryRun(c, nulls, ls);
    var s := Exec(c, Init(nulls), ls);
    SubqueryMeansOpen(c, s.db.history, r.phase);
    DeleteFilters(s.db.heartbeats, s.db.history, r);
  }

  /** The heartbeats of an attempt that is running its executor are never collected. */
  lemma GcSparesRunning(c: Config, nulls: nat, ls: seq<Label>, pid: ProcessId)
    requires var s := Exec(c, Init(nulls), ls);
             pid in s.procs && s.procs[pid].pc in {Executing, Guard, InsertTerminal}
    ensures var s := Exec(c, Init(nulls), ls);
            s.procs[pid].idx < |c| && HasOpenAttempt(s.db.history, c[s.procs[pid].idx].name)
  {
    SafeInEveryRun(c, nulls, ls);
    var s := Exec(c, Init(nulls), ls);
    var p := s.procs[pid];
    assert OpenAttempt(s.db.history, c[p.idx].name, p.attempt);
  }

  /** The process of an attempt has died after STARTED and before the terminal event. */
  ghost predicate Abandoned(s: State, pid: ProcessId, phase: string, attempt: nat) {
    && pid in s.procs && !Live(s.procs[pid])
    && Rows(s.db.history, phase, attempt) == [PhaseEvent(phase, attempt, Started, pid)]
  }

  lemma StepKeepsAbandoned(c: Config, s: State, l: Label, pid: ProcessId, phase: string, attempt: nat)
    requires Safe(c, s) && Abandoned(s, pid, phase, attempt)
    ensures Abandoned(Apply(c, s, l), pid, phase, attempt)
  {
    StepAddsOneRow(c, s, l);
    DeadStayDead(c, s, l, pid);
    var h' := Apply(c, s, l).db.history;
    if h' != s.db.history {
      RowsAppend(s.db.history, Last(h'));
    }
  }

  /** An abandoned attempt stays open for ever, so gc never again removes a heartbeat of that phase,
      even after a later attempt has completed it. */
  lemma {:induction false} AbandonedAttemptStaysOpen(c: Config, s: State, ls: seq<Label>, pid: ProcessId,
                                                     phase: string, attempt: nat)
    requires Safe(c, s) && Abandoned(s, pid, phase, attempt)
    ensures Safe(c, Exec(c, s, ls)) && Abandoned(Exec(c, s, ls), pid, phase, attempt)
    ensures StillRunning(Exec(c, s, ls).db.history, phase)
  {
    if ls != [] {
      var s1 := Exec(c, s, ls[..|ls| - 1]);
      AbandonedAttemptStaysOpen(c, s, ls[..|ls| - 1], pid, phase, attempt);
      ApplyKeepsSafe(c, s1, Last(ls));
      StepKeepsAbandoned(c, s1, Last(ls), pid, phase, attempt);
    }
    OpenIsStarted(Exec(c, s, ls).db.history, phase, attempt);
    WithoutTerminalIsRunning(Exec(c, s, ls).db.history, phase);
  }

  /** Attempt 1 has sent a heartbeat and crashed; its lock has expired. */
  function Orphan(): State {
    var s := AfterStart(Init(0), 0);
    var p := s.procs[0].(pc := Crashed, ticker := Stopped);
    Put(s.(now := s.now + LOCK_TTL + 1, db := s.db.(heartbeats := [HeartbeatRow("expand", 1, 0)])), 0, p)
  }

  lemma OrphanOccurs()
    ensures Occurs(Orphan())
  {
    var s := AfterStart(Init(0), 0);
    InitOccurs();
    StartsAlone(Init(0), 0);
    StepOccurs(s, Act(0, Beat(NoFault)));
    var t := Apply(OnePhase(), s, Act(0, Beat(NoFault)));
    StepOccurs(t, Act(0, Crash));
    var u := Apply(OnePhase(), t, Act(0, Crash));
    StepOccurs(u, Tick(LOCK_TTL + 1));
    assert Apply(OnePhase(), u, Tick(LOCK_TTL + 1)) == Orphan();
  }

  lemma OrphanFacts()
    ensures var s := AfterCompletion(Orphan(), 1);
            && (forall q :: q in s.procs ==> !Live(s.procs[q])) && 0 in s.procs
            && s.db.heartbeats == [HeartbeatRow("expand", 1, 0)]
            && |s.db.history| == 3 && s.db.history[0] == PhaseEvent("expand", 1, Started, 0)
            && s.db.history[1].attempt == 2 && s.db.history[2] == PhaseEvent("expand", 2, Completed, 1)
  {
  }

  lemma KeepsTheOne(h: seq<PhaseEvent>)
    requires StillRunning(h, "expand")
    ensures DeleteHeartbeats([HeartbeatRow("expand", 1, 0)], h) == [HeartbeatRow("expand", 1, 0)]
  {
    assert [HeartbeatRow("expand", 1, 0)][1..] == [];
  }

  lemma RowsOfThree(h: seq<PhaseEvent>)
    requires |h| == 3 && h[0] == PhaseEvent("expand", 1, Started, 0) && h[1].attempt == h[2].attempt == 2
    ensures Rows(h, "expand", 1) == [h[0]]
  {
    assert h == [h[0]] + [h[1]] + [h[2]];
    RowsAppend([], h[0]);
    RowsAppend([h[0]], h[1]);
    RowsAppend([h[0]] + [h[1]], h[2]);
    assert [] + [h[0]] == [h[0]];
  }

  lemma OrphanIsKept(s: State)
    requires Occurs(s) && 0 in s.procs && !Live(s.procs[0]) && s.db.heartbeats == [HeartbeatRow("expand", 1, 0)]
    requires |s.db.history| == 3 && s.db.history[0] == PhaseEvent("expand", 1, Started, 0)
    requires s.db.history[1].attempt == s.db.history[2].attempt == 2
    ensures Abandoned(s, 0, "expand", 1) && Apply(OnePhase(), s, Gc) == s
  {
    RowsOfThree(s.db.history);
    OccursIsSafe(s);
    OpenIsStarted(s.db.history, "expand", 1);
    WithoutTerminalIsRunning(s.db.history, "expand");
    KeepsTheOne(s.db.history);
  }

  /** A run against the documentation, which says that gc goes by the latest event: attempt 1 has crashed, attempt 2 has
      completed the phase, its COMPLETED is the latest event of all, nobody is alive, and gc removes no heartbeat. */
  lemma CompletedPhaseKeepsHeartbeats() returns (ls: seq<Label>)
    ensures var s := Exec(OnePhase(), Init(0), ls);
            && (forall q :: q in s.procs ==> !Live(s.procs[q]))
            && s.db.history != [] && Last(s.db.history) == PhaseEvent("expand", 2, Completed, 1)
            && Abandoned(s, 0, "expand", 1)
            && s.db.heartbeats == [HeartbeatRow("expand", 1, 0)]
            && Apply(OnePhase(), s, Gc) == s
  {
    OrphanOccurs();
    OrphanFacts();
    CompletesAlone(Orphan(), 1);
    OrphanIsKept(AfterCompletion(Orphan(), 1));
    ls :| RunTo(ls, AfterCompletion(Orphan(), 1));
  }
}
