/** internal/lint/estimates.go: the dry-run duration, in milliseconds, against the time a backfill really sleeps. */
module Estimate {
  import opened Arithmetic
  import opened Store
  import opened Table
  import opened Backfill

  datatype BatchInfo = BatchInfo(size: int, delayMs: int, rowCount: Option<nat>)

  /** What Estimate reads of a phase. `rowCount` is the answer to its COUNT(*); a phase whose batch query names no
      table has none and is passed over. */
  datatype PhaseInfo = PhaseInfo(name: string, batch: Option<BatchInfo>, gateTimeoutMinutes: Option<int>)

  datatype DryRunEstimate = DryRunEstimate(rowCount: nat, backfillMs: real, gateTimeoutAdequate: bool)

  /** rows / (size / delay); a delay of zero counts as one millisecond. */
  function BackfillMs(size: int, delayMs: int, rowCount: nat): real {
    var delay := if delayMs <= 0 then 1.0 else delayMs as real;
    var rowsPerMs := size as real / delay;
    if rowsPerMs > 0.0 then rowCount as real / rowsPerMs else 0.0
  }

  ghost predicate TooShort(p: PhaseInfo, backfillMs: real) {
    p.name == "gate" && p.gateTimeoutMinutes.Some?
    && 0.0 < p.gateTimeoutMinutes.value as real * 60_000.0 < backfillMs * 1.5
  }

  function Estimated(phases: seq<PhaseInfo>): seq<nat> {
    if phases == [] then []
    else
      var rest := Estimated(phases[..|phases| - 1]);
      var p := Last(phases);
      if p.batch.Some? && p.batch.value.rowCount.Some? then rest + [|phases| - 1] else rest
  }

  /** The positions, in order, of exactly the phases that have a batch on a table whose rows could be counted. */
  lemma {:induction false} EstimatedExactly(phases: seq<PhaseInfo>)
    ensures forall i :: i in Estimated(phases) <==>
              0 <= i < |phases| && phases[i].batch.Some? && phases[i].batch.value.rowCount.Some?
    ensures forall j, k :: 0 <= j < k < |Estimated(phases)| ==> Estimated(phases)[j] < Estimated(phases)[k]
  {
    if phases != [] {
      var front := phases[..|phases| - 1];
      EstimatedExactly(front);
      assert forall j :: 0 <= j < |Estimated(front)| ==> Estimated(front)[j] in Estimated(front);
    }
  }

  method GatesAdequate(phases: seq<PhaseInfo>, backfillMs: real) returns (adequate: bool)
    ensures adequate <==> forall j :: 0 <= j < |phases| ==> !TooShort(phases[j], backfillMs)
  {
    adequate := true;
    for j := 0 to |phases|
      invariant adequate <==> forall k :: 0 <= k < j ==> !TooShort(phases[k], backfillMs)
    {
      if phases[j].name == "gate" && phases[j].gateTimeoutMinutes.Some? {
        var timeout := phases[j].gateTimeoutMinutes.value as real * 60_000.0;
        if timeout > 0.0 && timeout < backfillMs * 1.5 {
          adequate := false;
        }
      }
    }
  }

  /** One estimate for each phase with a batch on a countable table, in order; a gate is inadequate when some gate's
      timeout is set and shorter than one and a half times the estimate. */
  method Estimate(phases: seq<PhaseInfo>) returns (estimates: seq<DryRunEstimate>)
    ensures |estimates| == |Estimated(phases)|
    ensures forall k :: 0 <= k < |estimates| ==>
              Estimated(phases)[k] < |phases| && phases[Estimated(phases)[k]].batch.Some?
              && var b := phases[Estimated(phases)[k]].batch.value;
                 b.rowCount == Some(estimates[k].rowCount)
                 && estimates[k].backfillMs == BackfillMs(b.size, b.delayMs, estimates[k].rowCount)
                 && (estimates[k].gateTimeoutAdequate <==>
                       forall j :: 0 <= j < |phases| ==> !TooShort(phases[j], estimates[k].backfillMs))
  {
    estimates := [];
    for i := 0 to |phases|
      invariant |estimates| == |Estimated(phases[..i])|
      invariant forall k :: 0 <= k < |estimates| ==>
                  Estimated(phases[..i])[k] < i && phases[Estimated(phases[..i])[k]].batch.Some?
                  && var b := phases[Estimated(phases[..i])[k]].batch.value;
                     b.rowCount == Some(estimates[k].rowCount)
                     && estimates[k].backfillMs == BackfillMs(b.size, b.delayMs, estimates[k].rowCount)
                     && (estimates[k].gateTimeoutAdequate <==>
                           forall j :: 0 <= j < |phases| ==> !TooShort(phases[j], estimates[k].backfillMs))
    {
      assert phases[..i + 1][..i] == phases[..i];
      var p := phases[i];
      if p.batch.Some? && p.batch.value.rowCount.Some? {
        var b := p.batch.value;
        var ms := BackfillMs(b.size, b.delayMs, b.rowCount.value);
        var adequate := GatesAdequate(phases, ms);
        estimates := estimates + [DryRunEstimate(b.rowCount.value, ms, adequate)];
      }
    }
    assert phases[..|phases|] == phases;
  }

  /** A delay of 0 or less counts as 1 ms, and a size of 0 or less as no work at all. */
  lemma BackfillMsIs(size: int, delayMs: int, n: nat)
    ensures size > 0 ==> BackfillMs(size, delayMs, n) * size as real == n as real * Most(delayMs, 1) as real
    ensures size <= 0 ==> BackfillMs(size, delayMs, n) == 0.0
  {
    var d := Most(delayMs, 1) as real;
    var s := size as real;
    var rate := s / d;
    assert rate * d == s;
    if size <= 0 {
      assert rate <= 0.0;
      return;
    }
    assert rate > 0.0;
    var est := n as real / rate;
    assert est * rate == n as real;
    assert est * s == est * (rate * d) == (est * rate) * d;
  }

  lemma Distribute(a: real, b: real, d: real)
    ensures (a + b) * d == a * d + b * d
  {
  }

  lemma MulLe(a: real, b: real, d: real)
    requires a <= b && d > 0.0
    ensures a * d <= b * d
  {
  }

  lemma MulLt(a: real, b: real, d: real)
    requires a < b && d > 0.0
    ensures a * d < b * d
  {
  }

  lemma Cancel(a: real, b: real, s: real)
    requires s > 0.0 && a * s <= b * s
    ensures a <= b
  {
  }

  lemma CancelLt(a: real, b: real, s: real)
    requires s > 0.0 && a * s < b * s
    ensures a < b
  {
  }

  lemma Bracket(est: real, n: nat, q: nat, size: int, delay: int)
    requires size > 0 && delay >= 1 && n <= q * size < n + size
    requires est * size as real == n as real * delay as real
    ensures est <= (q * delay) as real < est + delay as real
  {
    var s, d, k := size as real, delay as real, (q * delay) as real;
    assert k == q as real * d;
    assert (q * size) as real == q as real * s;
    assert k * s == (q as real * s) * d;
    MulLe(n as real, q as real * s, d);
    assert est * s <= k * s;
    MulLt(q as real * s, n as real + s, d);
    Distribute(n as real, s, d);
    Distribute(est, d, s);
    Cancel(est, k, s);
    CancelLt(k, est + d, s);
  }

  /** The time slept between batches is the estimate rounded up to a whole number of delays. */
  lemma EstimateBrackets(size: int, delayMs: int, n: nat)
    requires size > 0 && delayMs >= 1
    ensures var slept := CeilDiv(n, size) * delayMs;
            BackfillMs(size, delayMs, n) <= slept as real < BackfillMs(size, delayMs, n) + delayMs as real
  {
    var q := CeilDiv(n, size);
    assert n <= q * size < n + size by {
      assert n + size - 1 == q * size + (n + size - 1) % size;
    }
    BackfillMsIs(size, delayMs, n);
    Bracket(BackfillMs(size, delayMs, n), n, q, size, delayMs);
  }

  /** An undisturbed backfill of an all-NULL table sleeps at least the estimate made for it, and less than one delay
      more. */
  method EstimateThenRun(db: Target, cps: Checkpoints, executor: BackfillExecutor, env: seq<Turn>)
    returns (est: real, r: Result, p: Loop)
    requires db.Valid() && Resumable(db, cps) && executor.cfg.size > 0 && executor.cfg.delayMs >= 1
    requires executor.cfg.doneExpected == 0 && Nulls(db.rows) == db.rows.Keys
    requires QuietAll(executor.cfg, env) && |env| > CeilDiv(|db.rows|, executor.cfg.size)
    modifies db`rows, db`nextId, db`writes, db`touched, cps
    ensures r == Ok && est <= p.slept as real < est + executor.cfg.delayMs as real
  {
    est := BackfillMs(executor.cfg.size, executor.cfg.delayMs, |db.rows|);
    EstimateBrackets(executor.cfg.size, executor.cfg.delayMs, |db.rows|);
    assert |Nulls(db.rows)| == |db.rows|;
    r, p := executor.Execute(db, cps, NoStartFault, env);
  }
}
