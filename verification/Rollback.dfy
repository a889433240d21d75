/** The rollback command (internal/phase/rollback.go, executor.go, expand.go, and the Rollback of each executor):
    undoing phases in reverse order down to a target. A schema is any value, and `run` says what a statement makes of
    it; the server may fail any statement, before or after it takes effect. */
module Rollback {
  import opened Arithmetic
  import opened Store
  import opened SqlText

  import ContractPhase = Contract
  import Protocol

  datatype Phase = Phase(name: string, sql: string, rollbackSql: string)

  datatype Kind = Expand | Backfill | Gate | Contract

  datatype Executor = Executor(kind: Kind, phase: Phase)

  function TypeName(k: Kind): string {
    match k case Expand => "EXPAND" case Backfill => "BACKFILL" case Gate => "GATE" case Contract => "CONTRACT"
  }

  function KindOf(name: string): Option<Kind> {
    if name == "expand" then Some(Expand)
    else if name == "backfill" then Some(Backfill)
    else if name == "gate" then Some(Gate)
    else if name == "contract" then Some(Contract)
    else None
  }

  /** The executors of `phases`: a phase whose name is not known has none. */
  function Executors(phases: seq<Phase>): seq<Executor> {
    if phases == [] then []
    else
      Executors(phases[..|phases| - 1]) +
      (var k := KindOf(Last(phases).name); if k.None? then [] else [Executor(k.value, Last(phases))])
  }

  /** `BuildExecutors`. */
  method BuildExecutors(phases: seq<Phase>) returns (exs: seq<Executor>)
    ensures exs == Executors(phases)
  {
    exs := [];
    for i := 0 to |phases|
      invariant exs == Executors(phases[..i])
    {
      assert phases[..i + 1][..i] == phases[..i];
      var k := KindOf(phases[i].name);
      if k.Some? {
        exs := exs + [Executor(k.value, phases[i])];
      }
    }
    assert phases[..|phases|] == phases;
  }

  predicate Known(p: Phase) { KindOf(p.name).Some? }

  /** Executor i is that of phase i, wherever there is an executor i. */
  ghost predicate Aligned(phases: seq<Phase>) {
    |Executors(phases)| <= |phases|
    && forall i :: 0 <= i < |Executors(phases)| ==> Executors(phases)[i].phase == phases[i]
  }

  lemma {:induction false} ExecutorsAreKnown(phases: seq<Phase>)
    ensures |Executors(phases)| <= |phases|
    ensures forall e :: e in Executors(phases) ==> Some(e.kind) == KindOf(e.phase.name)
    ensures |Executors(phases)| == |phases| <==> forall i :: 0 <= i < |phases| ==> Known(phases[i])
  {
    if phases != [] {
      ExecutorsAreKnown(phases[..|phases| - 1]);
    }
  }

  lemma {:induction false} KnownPrefixCounts(phases: seq<Phase>, n: nat)
    requires n <= |phases| && forall i :: 0 <= i < n ==> Known(phases[i])
    ensures n <= |Executors(phases)|
  {
    if phases != [] {
      KnownPrefixCounts(phases[..|phases| - 1], if n == |phases| then n - 1 else n);
    }
  }

  lemma KnownPrefixIfAligned(phases: seq<Phase>)
    requires Aligned(phases)
    ensures forall i :: 0 <= i < |Executors(phases)| ==> Known(phases[i])
  {
    ExecutorsAreKnown(phases);
    forall i | 0 <= i < |Executors(phases)| ensures Known(phases[i]) {
      assert Executors(phases)[i] in Executors(phases);
    }
  }

  lemma {:induction false} AllKnownAligned(phases: seq<Phase>)
    requires forall i :: 0 <= i < |phases| ==> Known(phases[i])
    ensures |Executors(phases)| == |phases| && Aligned(phases)
  {
    if phases != [] {
      AllKnownAligned(phases[..|phases| - 1]);
    }
  }

  lemma AlignedWithLast(phases: seq<Phase>)
    requires phases != [] && Known(Last(phases))
    ensures Aligned(phases) <==> forall i :: 0 <= i < |phases| ==> Known(phases[i])
  {
    var front := phases[..|phases| - 1];
    ExecutorsAreKnown(front);
    ExecutorsAreKnown(phases);
    if Aligned(phases) {
      KnownPrefixIfAligned(phases);
      if |Executors(phases)| < |phases| {
        KnownPrefixCounts(front, |Executors(phases)|);
      }
    }
    if forall i :: 0 <= i < |phases| ==> Known(phases[i]) {
      AllKnownAligned(phases);
    }
  }

  /** No known name after an unknown one. */
  ghost predicate KnownFirst(phases: seq<Phase>) {
    forall i, j :: 0 <= i < j < |phases| && Known(phases[j]) ==> Known(phases[i])
  }

  lemma KnownFirstStep(phases: seq<Phase>)
    requires phases != []
    ensures KnownFirst(phases) <==>
            if Known(Last(phases)) then forall i :: 0 <= i < |phases| ==> Known(phases[i])
            else KnownFirst(phases[..|phases| - 1])
  {
    if KnownFirst(phases) && Known(Last(phases)) {
      forall i | 0 <= i < |phases| ensures Known(phases[i]) {
        assert Known(phases[|phases| - 1]);
      }
    }
  }

  /** The two lists line up exactly when every phase of an unknown name comes after all the others. */
  lemma {:induction false} AlignedIffKnownFirst(phases: seq<Phase>)
    ensures Aligned(phases) <==> KnownFirst(phases)
  {
    if phases != [] {
      var front := phases[..|phases| - 1];
      KnownFirstStep(phases);
      if Known(Last(phases)) {
        AlignedWithLast(phases);
      } else {
        AlignedIffKnownFirst(front);
        ExecutorsAreKnown(front);
        assert Executors(phases) == Executors(front);
        assert forall i :: 0 <= i < |front| ==> front[i] == phases[i];
      }
    }
  }

  /** The statements sent so far, the schema, and whether none has failed. */
  datatype Log<S> = Log(sent: seq<string>, schema: S, ok: bool)

  class Server<S> {
    const run: (string, S) -> S
    const faults: nat -> Fault  // of the n-th statement sent: an error may come after it took effect
    var schema: S
    var sent: seq<string>

    constructor (run: (string, S) -> S, faults: nat -> Fault, schema: S)
      ensures this.run == run && this.faults == faults && this.schema == schema && this.sent == []
    {
      this.run, this.faults, this.schema, this.sent := run, faults, schema, [];
    }

    ghost function Now(ok: bool): Log<S>
      reads this
    {
      Log(sent, schema, ok)
    }

    /** `ExecDDL`. */
    method ExecDDL(stmt: string) returns (ok: bool)
      modifies this
      ensures Now(ok) == Log(old(sent) + [stmt],
                             if faults(|old(sent)|) == Lost(false) then old(schema) else run(stmt, old(schema)),
                             faults(|old(sent)|).NoFault?)
    {
      var f := faults(|sent|);
      sent := sent + [stmt];
      if f != Lost(false) {
        schema := run(stmt, schema);
      }
      ok := f.NoFault?;
    }
  }

  /** What a list of statements makes of a schema. */
  ghost function After<S>(run: (string, S) -> S, stmts: seq<string>, s: S): S
    decreases |stmts|
  {
    if stmts == [] then s else After(run, stmts[1..], run(stmts[0], s))
  }

  /** Sending `stmts` one by one up to the first that fails. */
  ghost function Deliver<S>(run: (string, S) -> S, faults: nat -> Fault, log: Log<S>, stmts: seq<string>): Log<S>
    decreases |stmts|
  {
    if stmts == [] || !log.ok then log
    else
      match faults(|log.sent|)
      case NoFault => Deliver(run, faults, Log(log.sent + [stmts[0]], run(stmts[0], log.schema), true), stmts[1..])
      case Lost(committed) =>
        Log(log.sent + [stmts[0]], if committed then run(stmts[0], log.schema) else log.schema, false)
  }

  lemma {:induction false} AfterConcat<S>(run: (string, S) -> S, a: seq<string>, b: seq<string>, s: S)
    ensures After(run, a + b, s) == After(run, b, After(run, a, s))
    decreases |a|
  {
    if a == [] {
      assert a + b == b;
    } else {
      assert (a + b)[1..] == a[1..] + b;
      AfterConcat(run, a[1..], b, run(a[0], s));
    }
  }

  lemma {:induction false} DeliverConcat<S>(run: (string, S) -> S, faults: nat -> Fault, log: Log<S>,
                                        a: seq<string>, b: seq<string>)
    ensures Deliver(run, faults, log, a + b) == Deliver(run, faults, Deliver(run, faults, log, a), b)
    decreases |a|
  {
    if a == [] {
      assert a + b == b;
    } else if log.ok && faults(|log.sent|).NoFault? {
      assert (a + b)[1..] == a[1..] + b;
      DeliverConcat(run, faults, Log(log.sent + [a[0]], run(a[0], log.schema), true), a[1..], b);
    }
  }

  /** How many statements of a failed script took effect: all that were sent, or all but the one that failed. */
  function InEffect(fault: Fault, sent: nat): nat
    requires sent > 0
  {
    if fault == Lost(true) then sent else sent - 1
  }

  /** What was sent is a prefix; if the last one sent failed, those before it took effect, and it did if its error was
      only a lost reply. */
  lemma {:induction false} DeliversAPrefix<S>(run: (string, S) -> S, faults: nat -> Fault, log: Log<S>,
                                        stmts: seq<string>)
    requires log.ok
    ensures var end := Deliver(run, faults, log, stmts);
            var k := |end.sent| - |log.sent|;
            && 0 <= k <= |stmts| && end.sent == log.sent + stmts[..k]
            && (if end.ok then k == |stmts| && end.schema == After(run, stmts, log.schema)
                else k > 0 && faults(|end.sent| - 1).Lost?
                     && end.schema == After(run, stmts[..InEffect(faults(|end.sent| - 1), k)], log.schema))
    decreases |stmts|
  {
    if stmts != [] && faults(|log.sent|).NoFault? {
      var next := Log(log.sent + [stmts[0]], run(stmts[0], log.schema), true);
      DeliversAPrefix(run, faults, next, stmts[1..]);
      var end := Deliver(run, faults, log, stmts);
      var k := |end.sent| - |log.sent|;
      assert stmts[..k] == [stmts[0]] + stmts[1..][..k - 1];
      if !end.ok {
        var j := InEffect(faults(|end.sent| - 1), k);
        assert stmts[..j][1..] == stmts[1..][..j - 1];
      }
    }
  }

  /** The DDL an executor's Execute sends when it succeeds. */
  function Applying(e: Executor): seq<string> {
    match e.kind
    case Expand => [e.phase.sql]
    case Contract => Statements(e.phase.sql)
    case _ => []
  }

  /** A contract phase that runs to its end under an attempt of its own sends what Applying says. */
  method ApplyContract(e: Executor, w: ContractPhase.World, attempt: nat, readFails: bool,
                       env: seq<ContractPhase.Turn>)
    returns (r: ContractPhase.Result)
    requires e.kind.Contract? && w.Valid(e.phase.name, Statements(e.phase.sql))
    requires LatestCheckpoint(w.checkpoints, e.phase.name, attempt).None?
    modifies w
    ensures r == ContractPhase.Ok ==> w.sent == old(w.sent) + Applying(e)
  {
    var executor := new ContractPhase.ContractExecutor(e.phase.name, e.phase.sql, attempt);
    ghost var from, to;
    r, from, to := executor.Execute(w, readFails, env);
  }

  /** The DDL an executor's Rollback sends when it succeeds: expand sends its text whole, contract statement by
      statement in the order written, backfill and gate nothing. */
  function Undoing(e: Executor): seq<string> {
    match e.kind
    case Expand => if e.phase.rollbackSql == "" then [] else [e.phase.rollbackSql]
    case Contract => Statements(e.phase.rollbackSql)
    case _ => []
  }

  /** The first n scripts, in order. */
  function Upwards(scripts: seq<seq<string>>, n: nat): seq<string>
    requires n <= |scripts|
  {
    if n == 0 then [] else Upwards(scripts, n - 1) + scripts[n - 1]
  }

  /** The scripts [from, n), last first. */
  function Downwards(scripts: seq<seq<string>>, from: nat, n: nat): seq<string>
    requires n <= |scripts|
  {
    if n <= from then [] else scripts[n - 1] + Downwards(scripts, from, n - 1)
  }

  lemma {:induction false} DownOneMore(scripts: seq<seq<string>>, i: nat, n: nat)
    requires i < n <= |scripts|
    ensures Downwards(scripts, i, n) == Downwards(scripts, i + 1, n) + scripts[i]
  {
    if n > i + 1 {
      DownOneMore(scripts, i, n - 1);
    } else {
      assert Downwards(scripts, i, i) == [];
    }
  }

  function Undoings(exs: seq<Executor>): seq<seq<string>> {
    seq(|exs|, i requires 0 <= i < |exs| => Undoing(exs[i]))
  }

  function Applyings(exs: seq<Executor>): seq<seq<string>> {
    seq(|exs|, i requires 0 <= i < |exs| => Applying(exs[i]))
  }

  lemma NothingAfterFailed<S>(run: (string, S) -> S, faults: nat -> Fault, log: Log<S>, stmts: seq<string>, i: nat)
    requires i <= |stmts| && !Deliver(run, faults, log, NonBlank(stmts[..i])).ok
    ensures Deliver(run, faults, log, NonBlank(stmts)) == Deliver(run, faults, log, NonBlank(stmts[..i]))
  {
    DeliverConcat(run, faults, log, NonBlank(stmts[..i]), NonBlank(stmts[i..]));
    NonBlankConcat(stmts[..i], stmts[i..]);
    assert stmts == stmts[..i] + stmts[i..];
  }

  /** The statement loop of contract's Rollback. */
  method SendAll<S>(stmts: seq<string>, server: Server<S>) returns (ok: bool)
    modifies server
    ensures server.Now(ok) == Deliver(server.run, server.faults, old(server.Now(true)), NonBlank(stmts))
  {
    ghost var start := server.Now(true);
    for i := 0 to |stmts|
      invariant server.Now(true) == Deliver(server.run, server.faults, start, NonBlank(stmts[..i]))
    {
      NonBlankAt(stmts, i);
      var stmt := Trim(stmts[i]);
      if stmt == "" {
        continue;
      }
      DeliverConcat(server.run, server.faults, start, NonBlank(stmts[..i]), [stmt]);
      ok := server.ExecDDL(stmt);
      if !ok {
        NothingAfterFailed(server.run, server.faults, start, stmts, i + 1);
        return false;
      }
    }
    assert stmts[..|stmts|] == stmts;
    return true;
  }

  /** The `Rollback` methods of the executors. */
  method Undo<S>(e: Executor, server: Server<S>) returns (ok: bool)
    modifies server
    ensures server.Now(ok) == Deliver(server.run, server.faults, old(server.Now(true)), Undoing(e))
    // In full: nothing for backfill, gate or an empty text, the text as it is for expand, its statements for contract.
    ensures e.kind.Backfill? || e.kind.Gate? || e.phase.rollbackSql == "" ==>
              ok && server.sent == old(server.sent) && server.schema == old(server.schema)
    ensures e.kind.Expand? && e.phase.rollbackSql != "" ==> server.sent == old(server.sent) + [e.phase.rollbackSql]
    ensures e.kind.Contract? && ok ==> server.sent == old(server.sent) + Statements(e.phase.rollbackSql)
  {
    DeliversAPrefix(server.run, server.faults, server.Now(true), Undoing(e));
    if e.kind == Expand && e.phase.rollbackSql != "" {
      ok := server.ExecDDL(e.phase.rollbackSql);
    } else if e.kind == Contract && e.phase.rollbackSql != "" {
      ok := SendAll(Split(e.phase.rollbackSql), server);
    } else {
      BlankHasNoStatement("");
      ok := true;
    }
  }

  datatype Result = Ok | NotFound | UndoFailed(index: nat)

  /** Whether executor `e`, or else the phase in the same place, goes by the name `target`. */
  predicate Matches(e: Executor, p: Phase, target: string) {
    TypeName(e.kind) == target || p.name == target
  }

  /** `t` is the last match, -1 if there is none. */
  ghost predicate IsTarget(phases: seq<Phase>, target: string, t: int) {
    var exs := Executors(phases);
    && -1 <= t < |exs| <= |phases|
    && (t >= 0 ==> Matches(exs[t], phases[t], target))
    && (forall i :: t < i < |exs| ==> !Matches(exs[i], phases[i], target))
  }

  lemma NoMoreExecutorsThanPhases(phases: seq<Phase>)
    ensures |Executors(phases)| <= |phases|
  {
    ExecutorsAreKnown(phases);
  }

  method FindTarget(phases: seq<Phase>, exs: seq<Executor>, target: string) returns (t: int)
    requires exs == Executors(phases)
    ensures IsTarget(phases, target, t)
  {
    NoMoreExecutorsThanPhases(phases);
    t := -1;
    for i := 0 to |exs|
      invariant -1 <= t < i && (t >= 0 ==> Matches(exs[t], phases[t], target))
      invariant forall j :: t < j < i ==> !Matches(exs[j], phases[j], target)
    {
      if Matches(exs[i], phases[i], target) {
        t := i;
      }
    }
  }

  /** How a rollback to executor t may end: an error in executor i comes after everything above i has been undone,
      and nothing below i has been touched. */
  ghost predicate RolledBack<S>(r: Result, t: int, undoings: seq<seq<string>>, run: (string, S) -> S,
                                faults: nat -> Fault,
                                start: Log<S>, end: Log<S>)
    requires -1 <= t
  {
    match r
    case NotFound => end == start
    case Ok => end.ok && end == Deliver(run, faults, start, Downwards(undoings, t + 1, |undoings|))
    case UndoFailed(i) =>
      && t < i < |undoings| && !end.ok
      && end == Deliver(run, faults, start, Downwards(undoings, i, |undoings|))
      && Deliver(run, faults, start, Downwards(undoings, i + 1, |undoings|)).ok
  }

  lemma DeliverOneMore<S>(run: (string, S) -> S, faults: nat -> Fault, start: Log<S>, undoings: seq<seq<string>>,
                          i: nat)
    requires i < |undoings|
    ensures Deliver(run, faults, start, Downwards(undoings, i, |undoings|))
            == Deliver(run, faults, Deliver(run, faults, start, Downwards(undoings, i + 1, |undoings|)), undoings[i])
  {
    DownOneMore(undoings, i, |undoings|);
    DeliverConcat(run, faults, start, Downwards(undoings, i + 1, |undoings|), undoings[i]);
  }

  /** The scripts from i on have been sent, last first, and none has failed. */
  ghost predicate UndoneDownTo<S>(run: (string, S) -> S, faults: nat -> Fault, start: Log<S>,
                                  undoings: seq<seq<string>>, i: nat, now: Log<S>) {
    now == Deliver(run, faults, start, Downwards(undoings, i, |undoings|))
  }

  method UndoNext<S>(exs: seq<Executor>, i: nat, server: Server<S>, ghost t: nat, ghost undoings: seq<seq<string>>,
                     ghost start: Log<S>)
    returns (ok: bool)
    requires t < i < |exs| && undoings == Undoings(exs)
    requires UndoneDownTo(server.run, server.faults, start, undoings, i + 1, server.Now(true))
    modifies server
    ensures ok ==> UndoneDownTo(server.run, server.faults, start, undoings, i, server.Now(true))
    ensures !ok ==> RolledBack(UndoFailed(i), t, undoings, server.run, server.faults, start, server.Now(false))
  {
    DeliverOneMore(server.run, server.faults, start, undoings, i);
    ok := Undo(exs[i], server);
  }

  lemma NothingUndone<S>(run: (string, S) -> S, faults: nat -> Fault, start: Log<S>, undoings: seq<seq<string>>)
    ensures UndoneDownTo(run, faults, start, undoings, |undoings|, start)
  {
    assert Downwards(undoings, |undoings|, |undoings|) == [];
  }

  method UndoAbove<S>(exs: seq<Executor>, targetIdx: nat, server: Server<S>, ghost undoings: seq<seq<string>>)
    returns (r: Result)
    requires targetIdx < |exs| && undoings == Undoings(exs)
    modifies server
    ensures r != NotFound
    ensures RolledBack(r, targetIdx, undoings, server.run, server.faults, old(server.Now(true)), server.Now(r == Ok))
  {
    ghost var start := server.Now(true);
    NothingUndone(server.run, server.faults, start, undoings);
    var i := |exs| - 1;
    while i > targetIdx
      invariant targetIdx <= i < |exs|
      invariant UndoneDownTo(server.run, server.faults, start, undoings, i + 1, server.Now(true))
    {
      var ok := UndoNext(exs, i, server, targetIdx, undoings, start);
      if !ok {
        return UndoFailed(i);
      }
      i := i - 1;
    }
    return Ok;
  }

  /** `RollbackToPhase`. */
  method RollbackToPhase<S>(phases: seq<Phase>, target: string, server: Server<S>) returns (r: Result, ghost t: int)
    modifies server
    ensures IsTarget(phases, target, t) && (r == NotFound <==> t == -1)
    ensures RolledBack(r, t, Undoings(Executors(phases)), server.run, server.faults,
                       old(server.Now(true)), server.Now(!r.UndoFailed?))
  {
    var exs := BuildExecutors(phases);
    var targetIdx := FindTarget(phases, exs, target);
    t := targetIdx;
    if targetIdx < 0 {
      r := NotFound;
    } else {
      r := UndoAbove(exs, targetIdx, server, Undoings(exs));
    }
  }

  /** Undoing the i-th script after applying it in schema s gives s again. */
  ghost predicate Inverts<S>(run: (string, S) -> S, applying: seq<string>, undoing: seq<string>, s: S) {
    After(run, undoing, After(run, applying, s)) == s
  }

  ghost predicate InvertsAt<S>(run: (string, S) -> S, up: seq<seq<string>>, down: seq<seq<string>>, i: nat, s: S)
    requires i < |up| == |down|
  {
    Inverts(run, up[i], down[i], After(run, Upwards(up, i), s))
  }

  /** Every phase from `from` on, of the m that ran, is inverted by its rollback. */
  ghost predicate AllInvert<S>(run: (string, S) -> S, up: seq<seq<string>>, down: seq<seq<string>>, from: nat,
                               m: nat, s: S)
    requires m <= |up| == |down|
  {
    forall i :: from <= i < m ==> InvertsAt(run, up, down, i, s)
  }

  ghost predicate HarmlessAt<S>(run: (string, S) -> S, down: seq<seq<string>>, i: nat, s: S)
    requires i < |down|
  {
    After(run, down[i], s) == s
  }

  /** The rollbacks from the m-th on change nothing in schema s. */
  ghost predicate RestHarmless<S>(run: (string, S) -> S, down: seq<seq<string>>, m: nat, s: S) {
    forall i :: m <= i < |down| ==> HarmlessAt(run, down, i, s)
  }

  lemma {:induction false} UndoDownRestores<S>(run: (string, S) -> S, up: seq<seq<string>>, down: seq<seq<string>>,
                                        from: nat, n: nat, s: S)
    requires from <= n <= |up| == |down| && AllInvert(run, up, down, from, n, s)
    ensures After(run, Downwards(down, from, n), After(run, Upwards(up, n), s)) == After(run, Upwards(up, from), s)
    decreases n
  {
    if n > from {
      var before := After(run, Upwards(up, n - 1), s);
      AfterConcat(run, Upwards(up, n - 1), up[n - 1], s);
      AfterConcat(run, down[n - 1], Downwards(down, from, n - 1), After(run, Upwards(up, n), s));
      assert InvertsAt(run, up, down, n - 1, s);
      UndoDownRestores(run, up, down, from, n - 1, s);
    }
  }

  lemma {:induction false} HarmlessAbove<S>(run: (string, S) -> S, down: seq<seq<string>>, from: nat, m: nat,
                                        n: nat, s: S)
    requires from <= m <= n <= |down| && RestHarmless(run, down, m, s)
    ensures After(run, Downwards(down, from, n), s) == After(run, Downwards(down, from, m), s)
    decreases n
  {
    if n > m {
      assert HarmlessAt(run, down, n - 1, s);
      AfterConcat(run, down[n - 1], Downwards(down, from, n - 1), s);
      HarmlessAbove(run, down, from, m, n - 1, s);
    }
  }

  lemma {:induction false} DownwardsConcat(scripts: seq<seq<string>>, from: nat, k: nat, n: nat)
    requires from <= k <= n <= |scripts|
    ensures Downwards(scripts, from, n) == Downwards(scripts, k, n) + Downwards(scripts, from, k)
    decreases n
  {
    if n > k {
      DownwardsConcat(scripts, from, k, n - 1);
    } else {
      assert Downwards(scripts, k, k) == [];
    }
  }

  /** What a rollback to t makes of the schema of a migration whose first m phases have run, by the rollbacks of phases
      that never ran: those from m on that are above t. */
  ghost function AfterUnrun<S>(run: (string, S) -> S, down: seq<seq<string>>, t: nat, m: nat, s: S): S
    requires t < |down| && m <= |down|
  {
    After(run, Downwards(down, Most(m, t + 1), |down|), s)
  }

  /** The statements tell any two schemas apart. */
  ghost predicate Injective<S(!new)>(run: (string, S) -> S, stmts: seq<string>) {
    forall a: S, b: S :: After(run, stmts, a) == After(run, stmts, b) ==> a == b
  }

  /** The schema a rollback to t should leave: of the migration run as far as it was, and no further than t. */
  ghost function RunTo<S>(run: (string, S) -> S, up: seq<seq<string>>, t: nat, m: nat, s: S): S
    requires t < |up| && m <= |up|
  {
    After(run, Upwards(up, Least(m, t + 1)), s)
  }

  /** A nil has run the rollbacks of phases that never ran, and then those of the phases above t that did. */
  lemma OkMakes<S>(run: (string, S) -> S, faults: nat -> Fault, down: seq<seq<string>>, t: nat, m: nat, start: Log<S>,
                   end: Log<S>)
    requires t < |down| && m <= |down| && start.ok && RolledBack(Ok, t, down, run, faults, start, end)
    ensures end.schema == After(run, Downwards(down, t + 1, Most(m, t + 1)), AfterUnrun(run, down, t, m, start.schema))
  {
    var k := Most(m, t + 1);
    DeliversAPrefix(run, faults, start, Downwards(down, t + 1, |down|));
    DownwardsConcat(down, t + 1, k, |down|);
    AfterConcat(run, Downwards(down, k, |down|), Downwards(down, t + 1, k), start.schema);
  }

  /** The rollbacks of the phases above t that did run give the right schema. */
  lemma RunUndone<S>(run: (string, S) -> S, up: seq<seq<string>>, down: seq<seq<string>>, t: nat, m: nat, s: S)
    requires t < |up| == |down| && m <= |up| && AllInvert(run, up, down, t + 1, m, s)
    ensures After(run, Downwards(down, t + 1, Most(m, t + 1)), After(run, Upwards(up, m), s)) == RunTo(run, up, t, m, s)
  {
    if m > t + 1 {
      UndoDownRestores(run, up, down, t + 1, m, s);
    } else {
      assert Downwards(down, t + 1, t + 1) == [];
    }
  }

  /** The command as a whole, if each phase that ran is inverted by its rollback: a rollback to t that returns nil
      leaves the right schema when the rollbacks of phases that never ran, taken together, change nothing; and only
      then, if no phase above t has run, or if the rollbacks of those that have tell schemas apart. */
  lemma RollbackIsRightIff<S(!new)>(run: (string, S) -> S, faults: nat -> Fault, up: seq<seq<string>>,
                                    down: seq<seq<string>>, t: nat, m: nat, s: S, start: Log<S>, end: Log<S>)
    requires t < |up| == |down| && m <= |up| && start.ok && start.schema == After(run, Upwards(up, m), s)
    requires AllInvert(run, up, down, t + 1, m, s) && RolledBack(Ok, t, down, run, faults, start, end)
    ensures AfterUnrun(run, down, t, m, start.schema) == start.schema ==> end.schema == RunTo(run, up, t, m, s)
    ensures m <= t + 1 || Injective(run, Downwards(down, t + 1, m)) ==>
              (end.schema == RunTo(run, up, t, m, s) <==> AfterUnrun(run, down, t, m, start.schema) == start.schema)
  {
    OkMakes(run, faults, down, t, m, start, end);
    RunUndone(run, up, down, t, m, s);
    if m <= t + 1 {
      assert Downwards(down, t + 1, t + 1) == [];
    }
  }

  lemma HarmlessUnrun<S>(run: (string, S) -> S, down: seq<seq<string>>, t: nat, m: nat, s: S)
    requires t < |down| && m <= |down| && RestHarmless(run, down, m, s)
    ensures AfterUnrun(run, down, t, m, s) == s
  {
    var k := Most(m, t + 1);
    HarmlessAbove(run, down, k, k, |down|, s);
    assert Downwards(down, k, k) == [];
  }

  /** In particular when each of them changes nothing there. */
  lemma RollbackGoesBack<S>(run: (string, S) -> S, faults: nat -> Fault, up: seq<seq<string>>, down: seq<seq<string>>,
                            t: nat, m: nat, s: S, start: Log<S>, end: Log<S>)
    requires t < |up| == |down| && m <= |up| && start.ok && start.schema == After(run, Upwards(up, m), s)
    requires AllInvert(run, up, down, t + 1, m, s) && RestHarmless(run, down, m, start.schema)
    requires RolledBack(Ok, t, down, run, faults, start, end)
    ensures end.schema == RunTo(run, up, t, m, s)
  {
    OkMakes(run, faults, down, t, m, start, end);
    HarmlessUnrun(run, down, t, m, start.schema);
    RunUndone(run, up, down, t, m, s);
  }

  lemma OneInverted<S>(run: (string, S) -> S, up: seq<seq<string>>, down: seq<seq<string>>, i: nat, s: S)
    requires i < |up| == |down| && InvertsAt(run, up, down, i, s)
    ensures After(run, down[i], After(run, Upwards(up, i + 1), s)) == After(run, Upwards(up, i), s)
  {
    AfterConcat(run, Upwards(up, i), up[i], s);
  }

  /** A rollback that fails in phase i, which may or may not have run, leaves the schema of a migration run as far as it
      was and no further than i, less the statements of i's own rollback that took effect. That is all of them, and then
      the schema of one run no further than i - 1, exactly when only the reply to the last of them was lost. */
  lemma FailedRollbackStopsThere<S>(run: (string, S) -> S, faults: nat -> Fault, up: seq<seq<string>>,
                                    down: seq<seq<string>>, t: nat, i: nat, m: nat, s: S, start: Log<S>, end: Log<S>)
    requires |up| == |down| && m <= |up| && start.ok && start.schema == After(run, Upwards(up, m), s)
    requires AllInvert(run, up, down, t + 1, m, s) && RestHarmless(run, down, m, start.schema)
    requires RolledBack(UndoFailed(i), t, down, run, faults, start, end)
    ensures var sent := |end.sent| - |Deliver(run, faults, start, Downwards(down, i + 1, |down|)).sent|;
            && 0 < sent <= |down[i]|
            && var k := InEffect(faults(|end.sent| - 1), sent);
               && end.schema == After(run, down[i][..k], RunTo(run, up, i, m, s))
               && (k == |down[i]| <==> sent == |down[i]| && faults(|end.sent| - 1) == Lost(true))
               && (k == |down[i]| ==> end.schema == After(run, Upwards(up, Least(m, i)), s))
  {
    var mid := Deliver(run, faults, start, Downwards(down, i + 1, |down|));
    RollbackGoesBack(run, faults, up, down, i, m, s, start, mid);
    DeliverOneMore(run, faults, start, down, i);
    DeliversAPrefix(run, faults, mid, down[i]);
    assert down[i][..|down[i]|] == down[i];
    if i < m {
      OneInverted(run, up, down, i, s);
    } else {
      assert HarmlessAt(run, down, i, start.schema);
    }
  }

  lemma OneTarget(phases: seq<Phase>, target: string, t: int, u: int)
    requires IsTarget(phases, target, t) && IsTarget(phases, target, u)
    ensures t == u
  {
  }

  /** The schema of a migration whose first m phases had run, run no further than phase i, less the first statements of
      i's own rollback. */
  ghost predicate PartlyUndone<S>(run: (string, S) -> S, up: seq<seq<string>>, undoing: seq<string>, i: nat, m: nat,
                                  s: S, now: S)
    requires i < |up| && m <= |up|
  {
    exists k :: 0 <= k <= |undoing| && now == After(run, undoing[..k], RunTo(run, up, i, m, s))
  }

  lemma CommandFails<S>(run: (string, S) -> S, faults: nat -> Fault, up: seq<seq<string>>, down: seq<seq<string>>,
                        t: nat, m: nat, s: S, i: nat, start: Log<S>, end: Log<S>)
    requires |up| == |down| && m <= |up| && start.ok && start.schema == After(run, Upwards(up, m), s)
    requires AllInvert(run, up, down, t + 1, m, s) && RestHarmless(run, down, m, start.schema)
    requires RolledBack(UndoFailed(i), t, down, run, faults, start, end)
    ensures PartlyUndone(run, up, down[i], i, m, s, end.schema)
  {
    FailedRollbackStopsThere(run, faults, up, down, t, i, m, s, start, end);
  }

  /** The command on a migration file whose first m phases have run from schema s, t being the target: what `Ok` and an
      error mean for the schema. */
  method RollBackMigration<S(!new)>(phases: seq<Phase>, target: string, server: Server<S>, ghost t: nat, ghost m: nat,
                                    ghost s: S)
    returns (r: Result)
    requires IsTarget(phases, target, t) && m <= |Executors(phases)|
    requires server.schema == After(server.run, Upwards(Applyings(Executors(phases)), m), s)
    requires AllInvert(server.run, Applyings(Executors(phases)), Undoings(Executors(phases)), t + 1, m, s)
    modifies server
    ensures r != NotFound && (r.UndoFailed? ==> t < r.index < |Executors(phases)|)
    ensures r == Ok ==>
              var up, down, was := Applyings(Executors(phases)), Undoings(Executors(phases)), old(server.schema);
              && (AfterUnrun(server.run, down, t, m, was) == was ==> server.schema == RunTo(server.run, up, t, m, s))
              && (m <= t + 1 || Injective(server.run, Downwards(down, t + 1, m)) ==>
                  (server.schema == RunTo(server.run, up, t, m, s) <==> AfterUnrun(server.run, down, t, m, was) == was))
    ensures r.UndoFailed? && RestHarmless(server.run, Undoings(Executors(phases)), m, old(server.schema)) ==>
              var up, down := Applyings(Executors(phases)), Undoings(Executors(phases));
              PartlyUndone(server.run, up, down[r.index], r.index, m, s, server.schema)
  {
    ghost var start, found := server.Now(true), 0;
    ghost var up, down := Applyings(Executors(phases)), Undoings(Executors(phases));
    r, found := RollbackToPhase(phases, target, server);
    OneTarget(phases, target, t, found);
    if r == Ok {
      RollbackIsRightIff(server.run, server.faults, up, down, t, m, s, start, server.Now(true));
    } else if RestHarmless(server.run, down, m, start.schema) {
      CommandFails(server.run, server.faults, up, down, t, m, s, r.index, start, server.Now(false));
    }
  }

  // ----- Files that show it

  function Record(stmt: string, schema: seq<string>): seq<string> {
    schema + [stmt]
  }

  lemma OneStatement(sql: string)
    requires |sql| == 1 && !IsSpace(sql[0]) && sql[0] != ';'
    ensures Statements(sql) == [sql]
  {
    SplitOne(sql);
    assert [sql][..0] == [];
    assert NonBlank([sql][..0]) == [];
  }

  lemma OnlyExpandFacts()
    ensures var phases := [Phase("expand", "a", "b"), Phase("contract", "d", "c")];
            var exs := Executors(phases);
            && exs == [Executor(Expand, phases[0]), Executor(Contract, phases[1])]
            && IsTarget(phases, "expand", 0) && Undoings(exs) == [["b"], ["c"]]
            && After(Record, Upwards(Applyings(exs), 1), []) == ["a"]
  {
    var phases := [Phase("expand", "a", "b"), Phase("contract", "d", "c")];
    assert phases[..1] == [phases[0]] && phases[..1][..0] == [];
    assert Executors(phases[..1]) == [Executor(Expand, phases[0])];
    OneStatement("c");
    assert Upwards(Applyings(Executors(phases)), 1) == ["a"];
    assert ["a"][1..] == [];
  }

  lemma SecondSent(faults: nat -> Fault)
    requires forall n :: faults(n) == NoFault
    ensures Deliver(Record, faults, Log([], ["a"], true), Downwards([["b"], ["c"]], 1, 2))
         == Log(["c"], ["a", "c"], true)
    ensures Deliver(Record, faults, Log([], ["a"], true), Downwards([["b"], ["c"]], 2, 2)) == Log([], ["a"], true)
  {
    assert Downwards([["b"], ["c"]], 1, 2) == ["c"] + Downwards([["b"], ["c"]], 1, 1) == ["c"];
    assert ["c"][1..] == [] && [] + ["c"] == ["c"];
    assert Record("c", ["a"]) == ["a", "c"];
    assert Deliver(Record, faults, Log(["c"], Record("c", ["a"]), true), []) == Log(["c"], ["a", "c"], true);
  }

  /** A rollback to the first of two scripts, without faults, sends the second. */
  lemma OnlyContractSent(faults: nat -> Fault, r: Result, end: Log<seq<string>>)
    requires forall n :: faults(n) == NoFault
    requires r != NotFound && RolledBack(r, 0, [["b"], ["c"]], Record, faults, Log([], ["a"], true), end)
    ensures r == Ok && end.schema == ["a", "c"]
  {
    SecondSent(faults);
  }

  /** Only expand has run. Rolling back to expand returns nil and still runs contract's rollback: the command starts
      from the last phase of the file. */
  method UndoesWhatNeverRan() returns (r: Result, schema: seq<string>)
    ensures r == Ok
    ensures var exs := Executors([Phase("expand", "a", "b"), Phase("contract", "d", "c")]);
            && |exs| == 2 && IsTarget([Phase("expand", "a", "b"), Phase("contract", "d", "c")], "expand", 0)
            && After(Record, Upwards(Applyings(exs), 1), []) == ["a"] && schema == ["a", "c"]
  {
    var phases := [Phase("expand", "a", "b"), Phase("contract", "d", "c")];
    var server := new Server(Record, _ => NoFault, ["a"]);
    ghost var t;
    OnlyExpandFacts();
    r, t := RollbackToPhase(phases, "expand", server);
    OneTarget(phases, "expand", 0, t);
    OnlyContractSent(server.faults, r, server.Now(!r.UndoFailed?));
    schema := server.schema;
  }

  // ----- Which executor a target names

  function Capital(c: char): char {
    if 'a' <= c <= 'z' then (c as int - 32) as char else c
  }

  /** The four names that have an executor, here and in `runPhase`; its type is the name in capitals. */
  lemma TypeIsNameInCapitals(name: string)
    ensures Protocol.KnownPhase(name) <==> KindOf(name).Some?
    ensures KindOf(name).Some? <==> name in {"expand", "backfill", "gate", "contract"}
    ensures KindOf(name).Some? ==>
              TypeName(KindOf(name).value) == seq(|name|, i requires 0 <= i < |name| => Capital(name[i]))
  {
  }

  /** The executor of a known phase stands where the known phases before it put it. */
  lemma {:induction false} ExecutorAt(phases: seq<Phase>, j: nat)
    requires j < |phases| && Known(phases[j])
    ensures var pos := |Executors(phases[..j])|;
            && pos < |Executors(phases)|
            && Executors(phases)[pos] == Executor(KindOf(phases[j].name).value, phases[j])
  {
    var front := phases[..|phases| - 1];
    if j < |front| {
      assert front[..j] == phases[..j] && front[j] == phases[j];
      ExecutorAt(front, j);
    } else {
      assert front == phases[..j];
    }
  }

  lemma NamesAreNotTypes(name: string, k: Kind)
    requires KindOf(name).Some?
    ensures TypeName(k) != name
  {
    assert TypeName(k)[0] != name[0];
  }

  /** A phase's name, if it has it alone, finds that phase's executor exactly when every phase before it has a known
      name. */
  lemma NameFindsIffKnownBefore(phases: seq<Phase>, j: nat, t: int)
    requires j < |phases| && Known(phases[j])
    requires forall i :: 0 <= i < |phases| && i != j ==> phases[i].name != phases[j].name
    requires IsTarget(phases, phases[j].name, t)
    ensures t == |Executors(phases[..j])| <==> forall i :: 0 <= i < j ==> Known(phases[i])
  {
    var target, exs := phases[j].name, Executors(phases);
    forall i | 0 <= i < |exs|
      ensures Matches(exs[i], phases[i], target) <==> i == j
    {
      NamesAreNotTypes(target, exs[i].kind);
    }
    ExecutorsAreKnown(phases[..j]);
    ExecutorAt(phases, j);
    assert forall i :: 0 <= i < j ==> phases[..j][i] == phases[i];
    assert t == if j < |exs| then j else -1;
  }

  lemma TypesDiffer(k: Kind, k': Kind)
    ensures TypeName(k) == TypeName(k') <==> k == k'
  {
    assert k != k' ==> TypeName(k)[0] != TypeName(k')[0];
  }

  /** A type finds the last executor of it, whatever other phases the file has, if no phase is called so. */
  lemma TypeFindsLast(phases: seq<Phase>, k: Kind, t: int)
    requires forall i :: 0 <= i < |phases| ==> phases[i].name != TypeName(k)
    requires IsTarget(phases, TypeName(k), t)
    ensures var exs := Executors(phases);
            && (t >= 0 ==> exs[t].kind == k && forall i :: t < i < |exs| ==> exs[i].kind != k)
            && (t == -1 ==> forall j :: 0 <= j < |phases| ==> KindOf(phases[j].name) != Some(k))
  {
    var exs := Executors(phases);
    forall i | 0 <= i < |exs|
      ensures Matches(exs[i], phases[i], TypeName(k)) <==> exs[i].kind == k
    {
      TypesDiffer(exs[i].kind, k);
    }
    forall j | t == -1 && 0 <= j < |phases| && Known(phases[j])
      ensures KindOf(phases[j].name) != Some(k)
    {
      ExecutorAt(phases, j);
      assert !Matches(exs[|Executors(phases[..j])|], phases[|Executors(phases[..j])|], TypeName(k));
    }
  }

  /** With a misplaced unknown phase the lists do not line up: asked to go back to expand, the command undoes nothing,
      although contract comes after it. */
  lemma UnknownPhaseShiftsTarget(expand: Phase, contract: Phase, extra: Phase)
    requires expand.name == "expand" && contract.name == "contract" && extra.name == "custom"
    ensures var phases := [extra, expand, contract];
            && Executors(phases) == [Executor(Expand, expand), Executor(Contract, contract)]
            && !Aligned(phases)
            && IsTarget(phases, "expand", 1)
            && Downwards(Undoings(Executors(phases)), 2, 2) == []
  {
    var phases := [extra, expand, contract];
    assert phases[..2] == [extra, expand] && phases[..2][..1] == [extra] && [extra][..0] == [];
    assert Executors([extra]) == [];
    assert Executors([extra, expand]) == [Executor(Expand, expand)];
    assert Executors(phases)[1].phase != phases[1];
  }
}
