/** internal/phase/backfill.go: the batch loop over a live table. One `Turn` says what the world does during one
    iteration; the context is cancelled when the turns run out, so a list of turns is any interruption point. */
module Backfill {
  import opened Arithmetic
  import opened Store
  import opened Table

  /** `cursor` says that pk_cursor_query is set; size > 0 is checked when the migration file is read. */
  datatype BatchConfig = BatchConfig(size: int, delayMs: int, lagThresholdMs: int, checkpointEvery: int,
                                     cursor: bool, doneExpected: int)
  {
    /** 0, the absent YAML field, means every batch. */
    function Every(): (n: nat)
      ensures n > 0
    {
      if checkpointEvery <= 0 then 1 else checkpointEvery
    }

    function Delay(): nat {
      if delayMs > 0 then delayMs else 0
    }
  }

  datatype BackfillCheckpoint = BackfillCheckpoint(processed: int, batch: int, nullAtStart: int,
                                                   lastAffected: int, lastPK: int)

  /** Writes of other clients. A new row takes the next AUTO_INCREMENT id. */
  datatype Edit = Delete(id: int) | Insert(row: Row) | Set(id: int, val: int)

  datatype Turn = Turn(
    cancelled: bool,        // ctx.Err() at the loop head
    lag: Option<int>,       // replica lag, or a failed reading
    edits: seq<Edit>,       // other clients, before the batch
    batch: Fault,           // ExecBatch
    fills: map<int, int>,   // other clients may fill rows between batch and cursor query
    late: seq<Edit>,        // other clients, between an empty batch and the done_when query
    queryFails: bool,       // the cursor or the done_when query
    checkpointLost: bool,   // InsertCheckpoint
    cut: bool)              // cancelled during the delay

  datatype Result = Ok | Interrupted | QueryError

  /** The local variables of Execute, and the time spent asleep. */
  datatype Loop = Loop(lastPK: int, batchNum: nat, total: nat, lagEvents: nat, goodReadings: nat, slept: int)

  predicate EditFree(t: Turn) {
    t.edits == [] && t.late == [] && t.fills == map[]
  }

  /** Nothing throttles the loop: it is off, the reading failed, or the lag is within the threshold (a server that is
      not a replica reads -1). */
  predicate Unthrottled(cfg: BatchConfig, lag: Option<int>) {
    cfg.lagThresholdMs <= 0 || lag.None? || lag.value <= cfg.lagThresholdMs
  }

  predicate Quiet(cfg: BatchConfig, t: Turn) {
    && EditFree(t) && !t.cancelled && Unthrottled(cfg, t.lag)
    && t.batch == NoFault && !t.queryFails && !t.cut
  }

  /** Reading the lag: whether to go round again, and the counters. */
  function Throttle(cfg: BatchConfig, lag: Option<int>, p: Loop): (bool, Loop) {
    if cfg.lagThresholdMs <= 0 then (false, p)
    else
      var l := if lag.Some? then lag.value else 0;
      if l > cfg.lagThresholdMs then
        (true, p.(lagEvents := p.lagEvents + 1, goodReadings := 0,
                  slept := p.slept + Backoff(cfg.Delay(), p.lagEvents + 1)))
      else if p.goodReadings + 1 >= 3 then (false, p.(lagEvents := 0, goodReadings := 0))
      else (false, p.(goodReadings := p.goodReadings + 1))
  }

  function ThrottleAll(cfg: BatchConfig, lags: seq<Option<int>>, p: Loop): Loop {
    if lags == [] then p else Throttle(cfg, Last(lags), ThrottleAll(cfg, lags[..|lags| - 1], p)).1
  }

  /** The first lag makes the loop sleep twice the delay, and each further one in a row twice as long as the one before,
      up to a minute. */
  lemma LagsDoubleTheSleep(cfg: BatchConfig, lag: Option<int>, lag': Option<int>, p: Loop)
    requires !Unthrottled(cfg, lag) && !Unthrottled(cfg, lag')
    ensures var (again, q) := Throttle(cfg, lag, p);
            var (again', r) := Throttle(cfg, lag', q);
            && again && again'
            && (p.lagEvents == 0 ==> q.slept - p.slept == Least(2 * Most(cfg.delayMs, 0), 60_000))
            && r.slept - q.slept == Least(2 * (q.slept - p.slept), 60_000)
  {
    BackoffDoubles(cfg.Delay(), p.lagEvents + 1);
  }

  /** After a lag, good readings make the loop forget it exactly when there are three of them. */
  lemma {:induction false} ForgetsIffThreeGood(cfg: BatchConfig, lag: Option<int>, good: seq<Option<int>>, p: Loop)
    requires !Unthrottled(cfg, lag) && forall i :: 0 <= i < |good| ==> Unthrottled(cfg, good[i])
    ensures var after := Throttle(cfg, lag, p).1;
            var q := ThrottleAll(cfg, good, after);
            && q.lagEvents == (if |good| >= 3 then 0 else p.lagEvents + 1)
            && q.goodReadings == |good| % 3 && q.slept == after.slept
  {
    if good != [] {
      ForgetsIffThreeGood(cfg, lag, good[..|good| - 1], p);
    }
  }

  /** Whether an iteration gets as far as its batch. */
  predicate SendsBatch(cfg: BatchConfig, t: Turn) {
    !t.cancelled && Unthrottled(cfg, t.lag)
  }

  function BatchesSent(cfg: BatchConfig, env: seq<Turn>): nat {
    if env == [] then 0
    else BatchesSent(cfg, env[..|env| - 1]) + if SendsBatch(cfg, Last(env)) then 1 else 0
  }

  /** The shared tables and the locals at one moment of the loop. */
  datatype Snapshot = Snapshot(rows: Rows, writes: multiset<int>, cps: seq<CheckpointRow<BackfillCheckpoint>>,
                               p: Loop, fill: int -> int)

  lemma EmptyOrPositive(s: set<int>)
    ensures |s| == 0 <==> s == {}
  {
  }

  datatype StartFaults = NoStartFault | CountFails | LoadFails | Unreadable

  ghost predicate EditFreeAll(env: seq<Turn>) {
    forall i :: 0 <= i < |env| ==> EditFree(env[i])
  }

  ghost predicate QuietAll(cfg: BatchConfig, env: seq<Turn>) {
    forall i :: 0 <= i < |env| ==> Quiet(cfg, env[i])
  }

  /** No checkpoint insert is lost. */
  ghost predicate KeptAll(env: seq<Turn>) {
    forall i :: 0 <= i < |env| ==> !env[i].checkpointLost
  }

  function CeilDiv(n: nat, d: int): nat
    requires d > 0
  {
    (n + d - 1) / d
  }

  /** Some NULL rows of t0 have been filled, each written once, and nothing else has changed. */
  ghost predicate Accounted(t0: Rows, t: Rows, w0: multiset<int>, w: multiset<int>, fill: int -> int) {
    PartlyFilled(t0, t, fill) && w == w0 + multiset(Written(t0, t))
  }

  lemma AccountedStart(t: Rows, w: multiset<int>, fill: int -> int)
    ensures Accounted(t, t, w, w, fill)
  {
    assert Written(t, t) == {};
  }

  lemma WrittenStep(t0: Rows, t: Rows, ids: set<int>, fill: int -> int)
    requires PartlyFilled(t0, t, fill) && ids <= Nulls(t)
    ensures PartlyFilled(t0, Fill(t, ids, fill), fill)
    ensures Written(t0, Fill(t, ids, fill)) == Written(t0, t) + ids && Written(t0, t) !! ids
  {
    forall k | k in t && t[k].val.None?
      ensures t0[k] == t[k]
    {
      assert UpdateAll(t0, fill)[k].val.Some?;
    }
    assert Written(t0, Fill(t, ids, fill)) == Written(t0, t) + ids;
  }

  lemma AccountedStep(t0: Rows, t: Rows, ids: set<int>, w0: multiset<int>, w: multiset<int>, fill: int -> int)
    requires Accounted(t0, t, w0, w, fill) && ids <= Nulls(t)
    ensures Accounted(t0, Fill(t, ids, fill), w0, w + multiset(ids), fill)
  {
    WrittenStep(t0, t, ids, fill);
    assert multiset(Written(t0, t) + ids) == multiset(Written(t0, t)) + multiset(ids);
  }

  lemma LeftStep(t: Rows, ids: set<int>, fill: int -> int)
    requires ids <= Nulls(t)
    ensures |Nulls(Fill(t, ids, fill))| == |Nulls(t)| - |ids|
  {
    assert Nulls(Fill(t, ids, fill)) == Nulls(t) - ids;
  }

  /** Undisturbed, i iterations have filled i * size rows, or all of them. */
  ghost predicate Paced(p: Loop, i: nat, n: nat, cfg: BatchConfig) {
    && p.batchNum == i && p.slept == i * Most(cfg.delayMs, 0)
    && p.total <= n && p.total <= i * cfg.size && (p.total == n || p.total == i * cfg.size)
    && (i > 0 ==> (i - 1) * cfg.size < n)
  }

  /** i is the quotient rounded up as soon as (i - 1) * d < n <= i * d. */
  lemma CeilDivIs(n: nat, d: int, i: nat)
    requires d > 0
    ensures n <= i * d && (i > 0 ==> (i - 1) * d < n) ==> CeilDiv(n, d) == i
    ensures i * d < n ==> i < CeilDiv(n, d)
  {
    var q := CeilDiv(n, d);
    assert n + d - 1 == q * d + (n + d - 1) % d;
    if q < i {
      assert (q + 1) * d <= i * d;
      assert (i - 1) * d >= q * d by {
        assert i - 1 >= q;
      }
    } else if q > i {
      assert q * d >= (i + 1) * d;
    }
  }

  lemma PacedStep(p: Loop, q: Loop, i: nat, n: nat, affected: nat, goesOn: bool, cfg: BatchConfig)
    requires Paced(p, i, n, cfg) && cfg.size > 0
    requires affected == (if cfg.size < n - p.total then cfg.size else n - p.total)
    requires q.batchNum == p.batchNum + 1 && q.total == p.total + affected && goesOn == (affected > 0)
    requires q.slept == p.slept + if goesOn then cfg.Delay() else 0
    ensures goesOn ==> Paced(q, i + 1, n, cfg)
    ensures goesOn ==> i < CeilDiv(n, cfg.size)
    ensures !goesOn ==> i == CeilDiv(n, cfg.size) && q.total == n
  {
    assert (i + 1) * cfg.size == i * cfg.size + cfg.size;
    assert (i + 1) * Most(cfg.delayMs, 0) == i * Most(cfg.delayMs, 0) + Most(cfg.delayMs, 0);
    CeilDivIs(n, cfg.size, i);
  }

  lemma ModOf(q: nat, d: nat, r: nat)
    requires r < d
    ensures (q * d + r) % d == r && (q * d + r) / d == q
  {
    var k := (q * d + r) / d;
    assert q * d + r == k * d + (q * d + r) % d;
    MulMonotone(k + 1, q, d);
    MulMonotone(q + 1, k, d);
  }

  lemma NextQuotient(b: nat, d: nat)
    requires d > 0
    ensures (b + 1) / d == if (b + 1) % d == 0 then b / d + 1 else b / d
    ensures (b + 1) % d == 0 ==> (b / d + 1) * d == b + 1
  {
    var q := b / d;
    assert b + 1 == q * d + (b % d + 1);
    if b % d + 1 == d {
      assert b + 1 == (q + 1) * d;
      ModOf(q + 1, d, 0);
    } else {
      ModOf(q, d, b % d + 1);
    }
  }

  // ----- The checkpoints of one execution

  /** Of an execution on n NULL rows; a batch that wrote rows is recorded only if its number is a multiple of
      checkpoint_every, 0 of which stands for 1. */
  ghost predicate MarkOk(cp: BackfillCheckpoint, n: nat, cfg: BatchConfig) {
    && cp.nullAtStart == n && cp.batch > 0 && 0 <= cp.lastAffected <= cp.processed && cp.lastAffected <= cfg.size
    && (cp.lastAffected > 0 ==> cp.batch % (if cfg.checkpointEvery > 0 then cfg.checkpointEvery else 1) == 0)
    && (!cfg.cursor ==> cp.lastPK == 0)
  }

  /** Of two checkpoints in a row or further apart. Only the last can be of a batch that wrote nothing. */
  ghost predicate Precedes(a: BackfillCheckpoint, b: BackfillCheckpoint, cfg: BatchConfig) {
    && a.batch < b.batch && a.processed + b.lastAffected <= b.processed && a.lastAffected > 0
    && a.lastPK <= b.lastPK && (cfg.cursor && b.lastAffected > 0 ==> a.lastPK < b.lastPK)
  }

  ghost predicate Ordered(rows: seq<CheckpointRow<BackfillCheckpoint>>, from: nat, n: nat, cfg: BatchConfig) {
    && (forall i :: from <= i < |rows| ==> MarkOk(rows[i].payload, n, cfg))
    && (forall i, j :: from <= i < j < |rows| ==> Precedes(rows[i].payload, rows[j].payload, cfg))
  }

  /** They are of the past; `done` says that the last is the one written before returning nil. */
  ghost predicate AllBehind(rows: seq<CheckpointRow<BackfillCheckpoint>>, from: nat, p: Loop, done: bool) {
    forall i :: from <= i < |rows| ==>
      var cp := rows[i].payload;
      cp.batch <= p.batchNum && cp.processed <= p.total && cp.lastPK <= p.lastPK && (!done ==> cp.lastAffected > 0)
  }

  /** What the loop may add to the checkpoints on the way from p to q. */
  ghost predicate Adds(rows: seq<CheckpointRow<BackfillCheckpoint>>, rows': seq<CheckpointRow<BackfillCheckpoint>>,
                       p: Loop, q: Loop, affected: nat, n: nat, cfg: BatchConfig) {
    && p.batchNum <= q.batchNum && p.lastPK <= q.lastPK && q.total == p.total + affected && affected <= cfg.size
    && (rows' == rows
        || (&& rows' != [] && rows' == rows + [Last(rows')]
            && Last(rows').payload == BackfillCheckpoint(q.total, q.batchNum, n, affected, q.lastPK)
            && q.batchNum == p.batchNum + 1
            && (affected > 0 ==> q.batchNum % cfg.Every() == 0 && (cfg.cursor ==> p.lastPK < q.lastPK))
            && (!cfg.cursor ==> q.lastPK == 0)))
  }

  lemma OrderedStep(rows: seq<CheckpointRow<BackfillCheckpoint>>, rows': seq<CheckpointRow<BackfillCheckpoint>>,
                    from: nat, p: Loop, q: Loop, affected: nat, n: nat, done: bool, cfg: BatchConfig)
    requires from <= |rows| && Ordered(rows, from, n, cfg) && AllBehind(rows, from, p, false)
    requires Adds(rows, rows', p, q, affected, n, cfg) && (rows' != rows && affected == 0 ==> done)
    ensures Ordered(rows', from, n, cfg) && AllBehind(rows', from, q, done)
  {
    if rows' != rows {
      forall i | from <= i < |rows|
        ensures Precedes(rows'[i].payload, rows'[|rows|].payload, cfg)
      {
        assert rows'[i] == rows[i];
      }
    }
  }

  /** How many batches have written rows, if no other client writes: all but the last of them full. */
  function Steps(p: Loop, n: nat, cfg: BatchConfig): nat
    requires cfg.size > 0
  {
    if p.total < n then p.batchNum else CeilDiv(n, cfg.size)
  }

  ghost predicate FullBatches(p: Loop, n: nat, cfg: BatchConfig) {
    p.total <= n && (p.total < n ==> p.total == p.batchNum * cfg.size)
  }

  lemma StepsStep(p: Loop, q: Loop, affected: nat, n: nat, cfg: BatchConfig)
    requires cfg.size > 0 && FullBatches(p, n, cfg) && q.total == p.total + affected
    requires affected > 0 ==> affected == Least(cfg.size, n - p.total) && q.batchNum == p.batchNum + 1
    requires affected == 0 ==> q.batchNum == p.batchNum || p.total == n
    ensures FullBatches(q, n, cfg) && Steps(q, n, cfg) == Steps(p, n, cfg) + if affected > 0 then 1 else 0
    ensures affected > 0 ==> Steps(p, n, cfg) == p.batchNum && p.total == p.batchNum * cfg.size
    ensures affected > 0 ==> q.total == Least(q.batchNum * cfg.size, n)
  {
    assert (p.batchNum + 1) * cfg.size == p.batchNum * cfg.size + cfg.size;
    if affected > 0 && q.total == n {
      CeilDivIs(n, cfg.size, q.batchNum);
    }
  }

  /** `last` is where a cursor is that started at `start` and has passed `steps` batches' worth of ids of any kind. */
  ghost predicate Located(ids: set<int>, start: int, last: int, steps: nat, cfg: BatchConfig) {
    if cfg.cursor then
      && start <= last && (last == start || last in ids)
      && |Between(ids, start, last)| == Least(steps * cfg.size, |Past(ids, start)|)
    else last == start
  }

  lemma LocatedStep(ids: set<int>, start: int, last: int, next: int, steps: nat, cfg: BatchConfig)
    requires cfg.size > 0 && cfg.cursor && Located(ids, start, last, steps, cfg) && MovedPast(ids, last, cfg.size, next)
    ensures Located(ids, start, next, steps + 1, cfg)
  {
    BetweenSplit(ids, start, last, next);
    assert (steps + 1) * cfg.size == steps * cfg.size + cfg.size;
  }

  /** Exactly which ids the cursor has passed. */
  lemma PassedIff(ids: set<int>, start: int, last: int, steps: nat, k: int, cfg: BatchConfig)
    requires cfg.cursor && Located(ids, start, last, steps, cfg) && k in ids && k > start
    ensures k <= last <==> |Between(ids, start, k)| <= steps * cfg.size
  {
    BeforeIffFewer(ids, start, k, last);
    SubsetSize(Between(ids, start, k), Past(ids, start));
  }

  /** A checkpoint of an execution that started at `start` on n NULL rows of a table with these ids, if no other client
      writes. */
  ghost predicate Exact(cp: BackfillCheckpoint, ids: set<int>, start: int, n: nat, cfg: BatchConfig) {
    if cp.lastAffected > 0 then
      && cp.batch > 0 && cp.processed == Least(cp.batch * cfg.size, n)
      && cp.lastAffected == cp.processed - (cp.batch - 1) * cfg.size
      && Located(ids, start, cp.lastPK, cp.batch, cfg)
    else cp.processed == n
  }

  ghost predicate ExactAll(rows: seq<CheckpointRow<BackfillCheckpoint>>, from: nat, ids: set<int>, start: int, n: nat,
                           cfg: BatchConfig) {
    forall i :: from <= i < |rows| ==> Exact(rows[i].payload, ids, start, n, cfg)
  }

  /** None has been lost: one for every `checkpoint_every` batches that wrote rows, and one before nil. */
  ghost predicate Regular(rows: seq<CheckpointRow<BackfillCheckpoint>>, from: nat, steps: nat, done: bool,
                          cfg: BatchConfig) {
    var every := if cfg.checkpointEvery > 0 then cfg.checkpointEvery else 1;
    && |rows| == from + steps / every + (if done then 1 else 0)
    && (forall i :: from <= i < from + steps / every ==>
          rows[i].payload.lastAffected > 0 && rows[i].payload.batch == (i - from + 1) * every)
    && (done ==> Last(rows).payload.lastAffected == 0)
  }

  lemma RegularStep(rows: seq<CheckpointRow<BackfillCheckpoint>>, rows': seq<CheckpointRow<BackfillCheckpoint>>,
                    from: nat, steps: nat, affected: nat, done: bool, cfg: BatchConfig)
    requires Regular(rows, from, steps, false, cfg) && (done ==> affected == 0)
    requires rows' == rows
             || (rows' != [] && rows' == rows + [Last(rows')] && Last(rows').payload.lastAffected == affected)
    requires affected > 0 && rows' != rows ==> Last(rows').payload.batch == steps + 1
    requires rows' != rows <==> if affected > 0 then (steps + 1) % cfg.Every() == 0 else done
    ensures Regular(rows', from, if affected > 0 then steps + 1 else steps, done, cfg)
  {
    NextQuotient(steps, cfg.Every());
  }

  /** `remaining` as status shows it, against the true count. */
  ghost predicate Lag(cp: BackfillCheckpoint, left: nat, batchNum: nat, cfg: BatchConfig) {
    var remaining := cp.nullAtStart - cp.processed;
    && 0 <= remaining - left <= (cfg.Every() - 1) * cfg.size
    && (left > 0 ==> remaining - left <= (batchNum % cfg.Every()) * cfg.size)
  }

  ghost predicate OpensWith(cp: BackfillCheckpoint, n: nat, cfg: BatchConfig) {
    cp.nullAtStart == n && cfg.size > 0 && cp.processed == Least(cfg.Every() * cfg.size, n)
  }

  lemma CeilDivCovers(n: nat, d: int)
    requires d > 0
    ensures n <= CeilDiv(n, d) * d
  {
    assert n + d - 1 == CeilDiv(n, d) * d + (n + d - 1) % d;
  }

  /** The first checkpoint an execution writes shows min(period * size, n) of its n rows: until then every batch has
      been full, or the last. */
  lemma FirstShows(rows: seq<CheckpointRow<BackfillCheckpoint>>, from: nat, p: Loop, ids: set<int>, start: int, n: nat,
                   done: bool, cfg: BatchConfig)
    requires cfg.size > 0 && from < |rows| && Ordered(rows, from, n, cfg) && ExactAll(rows, from, ids, start, n, cfg)
    requires FullBatches(p, n, cfg) && (done ==> p.total == n) && Regular(rows, from, Steps(p, n, cfg), done, cfg)
    ensures OpensWith(rows[from].payload, n, cfg)
  {
    var steps, every := Steps(p, n, cfg), cfg.Every();
    if steps / every == 0 {
      assert steps < every;
      MulMonotone(steps, every, cfg.size);
      CeilDivCovers(n, cfg.size);
    } else {
      assert rows[from].payload.batch == 1 * every;
    }
  }

  lemma LeastGap(a: nat, b: nat, gap: nat, n: nat)
    requires a == b + gap
    ensures 0 <= Least(a, n) - Least(b, n) <= gap
  {
  }

  /** Rows done since a checkpoint after `shown` batches, of `steps` in all. */
  lemma LagOf(total: nat, shown: nat, over: nat, every: nat, n: nat, size: nat)
    requires total == Least((shown + over) * size, n) && over < every
    ensures 0 <= total - Least(shown * size, n) <= over * size <= (every - 1) * size
  {
    assert (shown + over) * size == shown * size + over * size;
    LeastGap((shown + over) * size, shown * size, over * size, n);
    MulMonotone(over, every - 1, size);
  }

  lemma LastOfRegular(rows: seq<CheckpointRow<BackfillCheckpoint>>, from: nat, steps: nat, cfg: BatchConfig)
    requires from < |rows| && Regular(rows, from, steps, false, cfg)
    ensures Last(rows).payload.lastAffected > 0 && Last(rows).payload.batch + steps % cfg.Every() == steps
  {
    assert rows[|rows| - 1].payload.batch == (steps / cfg.Every()) * cfg.Every();
  }

  /** The rows done since the last checkpoint are those of fewer than checkpoint_every batches. */
  lemma LagFollows(rows: seq<CheckpointRow<BackfillCheckpoint>>, from: nat, p: Loop, ids: set<int>, start: int, n: nat,
                   left: nat, done: bool, cfg: BatchConfig)
    requires cfg.size > 0 && from < |rows| && Ordered(rows, from, n, cfg) && ExactAll(rows, from, ids, start, n, cfg)
    requires FullBatches(p, n, cfg) && p.total + left == n && (done ==> left == 0)
    requires Regular(rows, from, Steps(p, n, cfg), done, cfg)
    ensures Lag(Last(rows).payload, left, p.batchNum, cfg)
  {
    var cp := rows[|rows| - 1].payload;
    assert MarkOk(cp, n, cfg) && Exact(cp, ids, start, n, cfg);
    if done {
      MulMonotone(0, cfg.Every() - 1, cfg.size);
    } else {
      var steps := Steps(p, n, cfg);
      LastOfRegular(rows, from, steps, cfg);
      CeilDivCovers(n, cfg.size);
      LagOf(p.total, cp.batch, steps % cfg.Every(), cfg.Every(), n, cfg.size);
    }
  }

  /** The checkpoints from index `from` on are of one Execute, and their progress never decreases. */
  ghost predicate Ascending(rows: seq<CheckpointRow<BackfillCheckpoint>>, from: nat, total: int, n: int) {
    forall i, j :: from <= i <= j < |rows| ==>
      0 <= rows[i].payload.processed <= rows[j].payload.processed <= total && rows[i].payload.nullAtStart == n
  }

  lemma OrderedAscends(rows: seq<CheckpointRow<BackfillCheckpoint>>, from: nat, ids: set<int>, start: int, n: nat,
                       cfg: BatchConfig)
    requires Ordered(rows, from, n, cfg) && ExactAll(rows, from, ids, start, n, cfg)
    ensures Ascending(rows, from, n, n)
  {
  }

  /** The rows these edits delete or set; a row that is inserted is a new one. */
  function EditedIds(edits: seq<Edit>): set<int> {
    set i | 0 <= i < |edits| && !edits[i].Insert? :: edits[i].id
  }

  /** The rows other clients delete or set during one iteration. */
  function TouchedBy(t: Turn): set<int> {
    EditedIds(t.edits) + EditedIds(t.late) + t.fills.Keys
  }

  function TouchedByAll(env: seq<Turn>): set<int> {
    set i, k | 0 <= i < |env| && k in TouchedBy(env[i]) :: k
  }

  lemma TouchedByOne(env: seq<Turn>, i: nat)
    requires i < |env|
    ensures TouchedBy(env[i]) <= TouchedByAll(env)
  {
    assert forall k :: k in TouchedBy(env[i]) ==> k in TouchedByAll(env);
  }

  /** A row nobody else has touched is as it was or as the one UPDATE would have made it, and it has been written if and
      only if it was NULL and is filled. */
  ghost predicate Follows(origin: Rows, touched: set<int>, rows: Rows, writes: multiset<int>, fill: int -> int) {
    forall k :: k in origin && k !in touched ==>
      && k in rows && (rows[k] == origin[k] || rows[k] == UpdateAll(origin, fill)[k])
      && (k in writes <==> origin[k].val.None? && rows[k].val.Some?)
  }

  /** Once no NULL row is left, the one UPDATE is what all of them have got, each written exactly once. */
  lemma FollowsToTheEnd(origin: Rows, touched: set<int>, rows: Rows, writes: multiset<int>, fill: int -> int)
    requires Follows(origin, touched, rows, writes, fill) && Nulls(rows) == {}
    requires forall k :: k in writes ==> writes[k] == 1
    ensures forall k :: k in origin && k !in touched ==>
              && k in rows && rows[k] == UpdateAll(origin, fill)[k]
              && writes[k] == if origin[k].val.None? then 1 else 0
  {
    forall k | k in origin && k !in touched
      ensures k in rows && rows[k] == UpdateAll(origin, fill)[k]
      ensures writes[k] == if origin[k].val.None? then 1 else 0
    {
      assert k !in Nulls(rows);
    }
  }

  lemma EditedIdsOfOne(e: Edit)
    ensures EditedIds([e]) == if e.Insert? then {} else {e.id}
  {
    assert [e][0] == e;
  }

  lemma EditedIdsConcat(edits: seq<Edit>, e: Edit)
    ensures EditedIds(edits + [e]) == EditedIds(edits) + EditedIds([e])
  {
    var all := edits + [e];
    assert all[|edits|] == e && [e][0] == e;
    forall k | k in EditedIds(edits)
      ensures k in EditedIds(all)
    {
      var i :| 0 <= i < |edits| && !edits[i].Insert? && edits[i].id == k;
      assert all[i] == edits[i];
    }
    forall k | k in EditedIds(all)
      ensures k in EditedIds(edits) + EditedIds([e])
    {
      var i :| 0 <= i < |all| && !all[i].Insert? && all[i].id == k;
      assert i < |edits| ==> all[i] == edits[i];
    }
  }

  lemma EditedIdsStep(edits: seq<Edit>, i: nat)
    requires i < |edits|
    ensures EditedIds(edits[..i + 1]) == EditedIds(edits[..i]) + EditedIds([edits[i]])
  {
    assert edits[..i + 1] == edits[..i] + [edits[i]];
    EditedIdsConcat(edits[..i], edits[i]);
  }

  class Target {
    var rows: Rows
    var nextId: int
    const fill: int -> int
    ghost const origin: Rows         // the rows at first
    ghost var touched: set<int>      // those other clients have deleted or set since
    ghost var writes: multiset<int>  // one entry for each time the backfill wrote a row

    ghost predicate Valid()
      reads this
    {
      && nextId > 0
      && (forall k :: k in rows ==> 0 < k < nextId)
      && (forall k :: k in origin ==> k < nextId)
      && (forall k :: k in writes ==> writes[k] == 1 && k < nextId && (k in rows ==> rows[k].val.Some?))
      && Follows(origin, touched, rows, writes, fill)
    }

    /** A cursor position that has left no NULL row behind. */
    ghost predicate Reached(last: int)
      reads this
    {
      last < nextId && FilledUpTo(rows, last)
    }

    constructor (rows: Rows, nextId: int, fill: int -> int)
      requires nextId > 0 && forall k :: k in rows ==> 0 < k < nextId
      ensures Valid() && this.rows == rows && this.fill == fill && writes == multiset{}
      ensures origin == rows && touched == {}
    {
      this.rows, this.nextId, this.fill, writes := rows, nextId, fill, multiset{};
      origin, touched := rows, {};
    }

    method Write(e: Edit)
      requires Valid()
      modifies this`rows, this`nextId, this`touched
      ensures Valid() && forall last :: old(Reached(last)) ==> Reached(last)
      ensures touched == old(touched) + EditedIds([e])
    {
      EditedIdsOfOne(e);
      match e
      case Delete(id) =>
        rows, touched := rows - {id}, touched + {id};
      case Insert(row) =>
        rows := rows[nextId := row];
        nextId := nextId + 1;
      case Set(id, v) =>
        touched := touched + {id};
        if id in rows {
          rows := rows[id := rows[id].(val := Some(v))];
        }
    }

    /** Other clients never clear the column and never reuse an id. */
    method Outside(edits: seq<Edit>)
      requires Valid()
      modifies this`rows, this`nextId, this`touched
      ensures Valid() && forall last :: old(Reached(last)) ==> Reached(last)
      ensures edits == [] ==> rows == old(rows) && nextId == old(nextId)
      ensures touched == old(touched) + EditedIds(edits)
    {
      for i := 0 to |edits|
        invariant Valid() && forall last :: old(Reached(last)) ==> Reached(last)
        invariant edits == [] ==> rows == old(rows) && nextId == old(nextId)
        invariant touched == old(touched) + EditedIds(edits[..i])
      {
        Write(edits[i]);
        EditedIdsStep(edits, i);
      }
      assert edits[..|edits|] == edits;
    }

    method OutsideFills(fills: map<int, int>)
      requires Valid()
      modifies this`rows, this`touched
      ensures Valid() && rows.Keys == old(rows.Keys) && touched == old(touched) + fills.Keys
      ensures forall k :: k in old(rows) && old(rows)[k].val.Some? ==> rows[k].val.Some?
      ensures fills == map[] ==> rows == old(rows)
    {
      rows := map k | k in rows :: if k in fills then rows[k].(val := Some(fills[k])) else rows[k];
      touched := touched + fills.Keys;
    }

    method ExecBatch(last: int, size: nat, f: Fault) returns (affected: nat, ok: bool, ghost ids: set<int>)
      requires Valid()
      modifies this`rows, this`writes
      ensures Valid() && ids == (if f == Lost(false) then {} else BatchIds(old(rows), last, size))
      ensures rows == Fill(old(rows), ids, fill) && writes == old(writes) + multiset(ids)
      ensures ok == f.NoFault? && (ok ==> affected == |ids|)
    {
      affected, ok, ids := 0, f.NoFault?, {};
      if f != Lost(false) {
        ids := BatchIds(rows, last, size);
        affected := |BatchIds(rows, last, size)|;
        writes := writes + multiset(ids);
        rows := Batch(rows, last, size, fill);
      } else {
        assert rows == Fill(rows, {}, fill);
      }
    }
  }

  class Checkpoints {
    var rows: seq<CheckpointRow<BackfillCheckpoint>>

    constructor ()
      ensures rows == []
    {
      rows := [];
    }
  }

  /** Every checkpoint, of any attempt, is a position from which nothing is skipped. */
  ghost predicate Resumable(db: Target, cps: Checkpoints)
    reads db, cps
  {
    forall i :: 0 <= i < |cps.rows| ==> db.Reached(cps.rows[i].payload.lastPK)
  }

  class BackfillExecutor {
    const cfg: BatchConfig
    const phase: string
    const attempt: nat

    constructor (cfg: BatchConfig, phase: string, attempt: nat)
      ensures this.cfg == cfg && this.phase == phase && this.attempt == attempt
    {
      this.cfg, this.phase, this.attempt := cfg, phase, attempt;
    }

    method InsertCheckpoint(cps: Checkpoints, cp: BackfillCheckpoint, lost: bool)
      modifies cps
      ensures cps.rows == old(cps.rows) + if lost then [] else [CheckpointRow(phase, attempt, cp)]
    {
      if !lost {
        cps.rows := cps.rows + [CheckpointRow(phase, attempt, cp)];
      }
    }

    /** Nothing left to fill in this batch: done_when decides. */
    method CheckDone(db: Target, cps: Checkpoints, t: Turn, p: Loop, nullAtStart: int) returns (out: Option<Result>)
      requires db.Valid() && Resumable(db, cps) && db.Reached(p.lastPK)
      modifies db`rows, db`nextId, db`touched, cps
      ensures db.Valid() && Resumable(db, cps) && db.Reached(p.lastPK)
      ensures EditFree(t) ==> db.rows == old(db.rows)
      ensures out == Some(QueryError) <==> t.queryFails
      ensures db.touched == old(db.touched) + EditedIds(t.late)
      ensures out == Some(Ok) <==> !t.queryFails && |Nulls(db.rows)| == cfg.doneExpected
      ensures out == None || out == Some(Ok) || out == Some(QueryError)
      ensures cps.rows == old(cps.rows)
              + if out == Some(Ok) && !t.checkpointLost
                then [CheckpointRow(phase, attempt, Record(p, nullAtStart, 0))] else []
    {
      db.Outside(t.late);
      if t.queryFails {
        return Some(QueryError);
      }
      if |Nulls(db.rows)| == cfg.doneExpected {
        InsertCheckpoint(cps, Record(p, nullAtStart, 0), t.checkpointLost);
        return Some(Ok);
      }
      return None;
    }

    function Record(p: Loop, nullAtStart: int, affected: int): BackfillCheckpoint {
      BackfillCheckpoint(p.total, p.batchNum, nullAtStart, affected, p.lastPK)
    }

    ghost function NewRow(p: Loop, nullAtStart: int, affected: int): CheckpointRow<BackfillCheckpoint> {
      CheckpointRow(phase, attempt, Record(p, nullAtStart, affected))
    }

    /** pk_cursor_query, then the periodic checkpoint. */
    method MoveCursor(db: Target, cps: Checkpoints, t: Turn, p: Loop, nullAtStart: int, affected: nat,
                      ghost before: Rows)
      returns (q: Loop, ok: bool)
      requires db.Valid() && Resumable(db, cps) && db.Reached(p.lastPK) && cfg.size > 0
      requires FilledUpTo(before, p.lastPK) && db.rows == Batch(before, p.lastPK, cfg.size, db.fill)
      modifies db`rows, db`touched, cps
      ensures db.Valid() && Resumable(db, cps) && db.Reached(q.lastPK)
      ensures EditFree(t) ==> db.rows == old(db.rows)
      ensures db.rows.Keys == old(db.rows.Keys)
      ensures ok == !(cfg.cursor && t.queryFails) && q == p.(lastPK := q.lastPK)
      ensures db.touched == old(db.touched) + t.fills.Keys
      ensures if cfg.cursor && ok then MovedPast(db.rows.Keys, p.lastPK, cfg.size, q.lastPK) else q.lastPK == p.lastPK
      ensures cps.rows == old(cps.rows)
              + if ok && q.batchNum % cfg.Every() == 0 && !t.checkpointLost
                then [CheckpointRow(phase, attempt, Record(q, nullAtStart, affected))] else []
    {
      q, ok := p, true;
      db.OutsideFills(t.fills);
      if cfg.cursor {
        if t.queryFails {
          return q, false;
        }
        CursorNeverSkips(before, db.rows, p.lastPK, cfg.size, db.fill);
        CursorAdvances(db.rows, p.lastPK, cfg.size);
        q := q.(lastPK := Cursor(db.rows, p.lastPK, cfg.size));
      }
      if q.batchNum % cfg.Every() == 0 {
        InsertCheckpoint(cps, Record(q, nullAtStart, affected), t.checkpointLost);
      }
    }

    /** The batch statement itself: from a cursor that skipped nothing it fills min(size, what is left) rows. */
    method FillBatch(db: Target, last: int, f: Fault) returns (affected: nat, ok: bool, ghost ids: set<int>)
      requires db.Valid() && db.Reached(last) && cfg.size > 0
      modifies db`rows, db`writes
      ensures db.Valid() && db.writes == old(db.writes) + multiset(ids)
      ensures db.rows == Fill(old(db.rows), ids, db.fill) && ids <= Nulls(old(db.rows)) && |ids| <= cfg.size
      ensures forall k :: k in ids ==> k > last
      ensures forall l :: old(db.Reached(l)) ==> db.Reached(l)
      ensures ok == f.NoFault?
      ensures ok ==> affected == |ids| && ids == BatchIds(old(db.rows), last, cfg.size)
      ensures ok ==> |ids| == if cfg.size < |Nulls(old(db.rows))| then cfg.size else |Nulls(old(db.rows))|
    {
      BatchFillsExactly(db.rows, last, cfg.size, db.fill);
      affected, ok, ids := db.ExecBatch(last, cfg.size, f);
    }

    /** Where the cursor is after a batch: it has moved over the next ids if the batch wrote rows, and not otherwise. */
    ghost predicate CursorMoves(ids: set<int>, p: Loop, q: Loop, written: set<int>)
      requires cfg.size > 0
    {
      if cfg.cursor && written != {} then MovedPast(ids, p.lastPK, cfg.size, q.lastPK) && q.lastPK > p.lastPK
      else q.lastPK == p.lastPK
    }

    /** The batch, then what its row count calls for. `ids` are the rows it wrote. */
    method RunBatch(db: Target, cps: Checkpoints, t: Turn, p: Loop, nullAtStart: int)
      returns (q: Loop, out: Option<Result>, ghost ids: set<int>)
      requires db.Valid() && Resumable(db, cps) && db.Reached(p.lastPK) && cfg.size > 0
      modifies db`rows, db`nextId, db`writes, db`touched, cps
      ensures db.Valid() && Resumable(db, cps) && db.Reached(q.lastPK)
      ensures db.writes == old(db.writes) + multiset(ids) && |ids| <= cfg.size && ids <= Nulls(old(db.rows))
      ensures forall k :: k in ids ==> k > p.lastPK
      ensures db.touched <= old(db.touched) + TouchedBy(t)
      ensures EditFree(t) ==> db.rows == Fill(old(db.rows), ids, db.fill)
      ensures EditFree(t) ==> Iterates(old(db.rows), p.lastPK, db.rows, q.lastPK)
      ensures out == None || out == Some(Ok) || out == Some(QueryError)
      ensures out == Some(QueryError) <==> t.batch.Lost? || (t.queryFails && (ids == {} || cfg.cursor))
      ensures out == Some(Ok) <==>
                t.batch.NoFault? && ids == {} && !t.queryFails && |Nulls(db.rows)| == cfg.doneExpected
      ensures out != Some(QueryError) ==>
                && q == p.(lastPK := q.lastPK, batchNum := p.batchNum + 1, total := p.total + |ids|)
                && |ids| == (if cfg.size < |Nulls(old(db.rows))| then cfg.size else |Nulls(old(db.rows))|)
                && CursorMoves(db.rows.Keys, p, q, ids)
      ensures out == Some(QueryError) ==> q.lastPK == p.lastPK
      ensures cps.rows == old(cps.rows)
              + if Logs(t, ids != {}, q.batchNum, out) then [NewRow(q, nullAtStart, |ids|)] else []
    {
      ghost var before := db.rows;
      var affected, ok;
      affected, ok, ids := FillBatch(db, p.lastPK, t.batch);
      q := p;
      if !ok {
        return q, Some(QueryError), ids;
      }
      q := p.(batchNum := p.batchNum + 1, total := p.total + affected);
      EmptyOrPositive(ids);
      if affected == 0 {
        assert Nulls(before) == {} && db.rows == before;
        out := CheckDone(db, cps, t, q, nullAtStart);
      } else {
        assert ids <= Past(db.rows.Keys, p.lastPK);
        q, ok := MoveCursor(db, cps, t, q, nullAtStart, affected, before);
        out := if ok then None else Some(QueryError);
      }
    }

    /** When an iteration writes a checkpoint: after every N-th batch that wrote rows, and before returning nil. */
    ghost predicate Logs(t: Turn, wrote: bool, batchNum: nat, out: Option<Result>) {
      && !t.checkpointLost
      && if wrote then out != Some(QueryError) && batchNum % cfg.Every() == 0 else out == Some(Ok)
    }

    /** When an iteration returns, and what: at a cancelled context, a failed statement, or a batch that finds nothing
        with done_when as expected. */
    ghost predicate Returns(t: Turn, wrote: bool, left: nat, out: Option<Result>) {
      var sends := SendsBatch(cfg, t);
      var fails := sends && (t.batch.Lost? || (t.queryFails && (!wrote || cfg.cursor)));
      var done := sends && !fails && !wrote && left == cfg.doneExpected;
      && (out == Some(QueryError) <==> fails)
      && (out == Some(Ok) <==> done)
      && (out == Some(Interrupted) <==> t.cancelled || (sends && t.cut && !fails && !done))
    }

    /** The batch and the delay after it. */
    method BatchAndDelay(db: Target, cps: Checkpoints, t: Turn, p: Loop, nullAtStart: int)
      returns (q: Loop, out: Option<Result>, ghost ids: set<int>)
      requires db.Valid() && Resumable(db, cps) && db.Reached(p.lastPK) && cfg.size > 0 && SendsBatch(cfg, t)
      modifies db`rows, db`nextId, db`writes, db`touched, cps
      ensures db.Valid() && Resumable(db, cps) && db.Reached(q.lastPK)
      ensures db.writes == old(db.writes) + multiset(ids) && |ids| <= cfg.size && ids <= Nulls(old(db.rows))
      ensures forall k :: k in ids ==> k > p.lastPK
      ensures db.touched <= old(db.touched) + TouchedBy(t)
      ensures EditFree(t) ==> db.rows == Fill(old(db.rows), ids, db.fill)
      ensures EditFree(t) ==> Iterates(old(db.rows), p.lastPK, db.rows, q.lastPK)
      ensures Returns(t, ids != {}, |Nulls(db.rows)|, out)
      ensures out != Some(QueryError) ==>
                && |ids| == Least(cfg.size, |Nulls(old(db.rows))|) && CursorMoves(db.rows.Keys, p, q, ids)
                && q == p.(lastPK := q.lastPK, batchNum := p.batchNum + 1, total := p.total + |ids|,
                           slept := p.slept + if out == Some(Ok) then 0 else Most(cfg.delayMs, 0))
      ensures cps.rows == old(cps.rows)
              + if Logs(t, ids != {}, q.batchNum, out) then [NewRow(q, nullAtStart, |ids|)] else []
    {
      q, out, ids := RunBatch(db, cps, t, p, nullAtStart);
      EmptyOrPositive(ids);
      if out.None? {
        q := q.(slept := q.slept + cfg.Delay());
        if t.cut {
          out := Some(Interrupted);
        }
      }
    }

    /** One iteration of the loop; `out` is what Execute returns, if it does. */
    method Iterate(db: Target, cps: Checkpoints, t: Turn, p: Loop, nullAtStart: int)
      returns (q: Loop, out: Option<Result>, ghost ids: set<int>)
      requires db.Valid() && Resumable(db, cps) && db.Reached(p.lastPK) && cfg.size > 0
      modifies db`rows, db`nextId, db`writes, db`touched, cps
      ensures db.Valid() && Resumable(db, cps) && db.Reached(q.lastPK)
      ensures db.writes == old(db.writes) + multiset(ids) && |ids| <= cfg.size
      ensures forall k :: k in ids ==> k > p.lastPK
      ensures db.touched <= old(db.touched) + TouchedBy(t)
      ensures EditFree(t) ==> ids <= Nulls(old(db.rows)) && db.rows == Fill(old(db.rows), ids, db.fill)
      ensures EditFree(t) ==> Iterates(old(db.rows), p.lastPK, db.rows, q.lastPK)
      ensures Returns(t, ids != {}, |Nulls(db.rows)|, out)
      ensures !SendsBatch(cfg, t) ==>
                ids == {} && q == p.(lagEvents := q.lagEvents, goodReadings := q.goodReadings, slept := q.slept)
      ensures SendsBatch(cfg, t) && EditFree(t) && out != Some(QueryError) ==>
                |ids| == Least(cfg.size, |Nulls(old(db.rows))|)
      ensures out != Some(QueryError) ==>
                && q.total == p.total + |ids| && CursorMoves(db.rows.Keys, p, q, ids)
                && q.batchNum == p.batchNum + if SendsBatch(cfg, t) then 1 else 0
      // The throttle's counters and sleep, and the delay.
      ensures !t.cancelled && out != Some(QueryError) ==>
                && q.lagEvents == Throttle(cfg, t.lag, p).1.lagEvents
                && q.goodReadings == Throttle(cfg, t.lag, p).1.goodReadings
                && q.slept == p.slept + if !SendsBatch(cfg, t) then Backoff(cfg.Delay(), p.lagEvents + 1)
                                        else if out == Some(Ok) then 0 else Most(cfg.delayMs, 0)
      ensures cps.rows == old(cps.rows)
              + if Logs(t, ids != {}, q.batchNum, out) then [NewRow(q, nullAtStart, |ids|)] else []
    {
      q, out, ids := p, None, {};
      assert db.rows == Fill(db.rows, {}, db.fill);
      if t.cancelled {
        return q, Some(Interrupted), ids;
      }
      db.Outside(t.edits);
      var (again, r) := Throttle(cfg, t.lag, p);
      q := r;
      if !again {
        q, out, ids := BatchAndDelay(db, cps, t, r, nullAtStart);
      }
    }

    // ----- The accounts of the loop

    /** Every row written since s0 was past the position the loop started from. */
    ghost predicate WritesPast(s0: Snapshot, s: Snapshot) {
      s0.writes <= s.writes && forall k :: s.writes[k] > s0.writes[k] ==> k > s0.p.lastPK
    }

    /** The checkpoints this execution has added. */
    ghost predicate CheckpointsFit(env: seq<Turn>, s0: Snapshot, cps: seq<CheckpointRow<BackfillCheckpoint>>, n: nat)
      requires cfg.size > 0
    {
      && s0.cps <= cps && Ordered(cps, |s0.cps|, n, cfg)
      && (forall i :: |s0.cps| <= i < |cps| ==> cps[i].phase == phase && cps[i].attempt == attempt)
      && (EditFreeAll(env) ==> ExactAll(cps, |s0.cps|, s0.rows.Keys, s0.p.lastPK, n, cfg))
      && (EditFreeAll(env) && KeptAll(env) && |cps| > |s0.cps| ==> OpensWith(cps[|s0.cps|].payload, n, cfg))
    }

    /** Everything one iteration can change, seen from the loop that started at s0. */
    ghost predicate LoopOk(env: seq<Turn>, s0: Snapshot, s: Snapshot, n: nat, done: bool)
      requires cfg.size > 0
    {
      && CheckpointsFit(env, s0, s.cps, n) && AllBehind(s.cps, |s0.cps|, s.p, done)
      && WritesPast(s0, s) && s0.p.lastPK <= s.p.lastPK
      && (EditFreeAll(env) ==>
            && Accounted(s0.rows, s.rows, s0.writes, s.writes, s.fill)
            && s.p.total + |Nulls(s.rows)| == n && FullBatches(s.p, n, cfg)
            && Located(s0.rows.Keys, s0.p.lastPK, s.p.lastPK, Steps(s.p, n, cfg), cfg)
            && (KeptAll(env) ==> Regular(s.cps, |s0.cps|, Steps(s.p, n, cfg), done, cfg)))
    }

    /** What is left of that when the loop ends with r: after a failed statement the counters may be behind. */
    ghost predicate LoopEnds(env: seq<Turn>, s0: Snapshot, s: Snapshot, n: nat, r: Result)
      requires cfg.size > 0
    {
      && CheckpointsFit(env, s0, s.cps, n) && WritesPast(s0, s)
      && (EditFreeAll(env) ==> Accounted(s0.rows, s.rows, s0.writes, s.writes, s.fill))
      && (r != QueryError ==> LoopOk(env, s0, s, n, r == Ok))
    }

    /** What Iterate promises about the same things. */
    ghost predicate Iterated(t: Turn, s: Snapshot, s': Snapshot, n: nat, ids: set<int>, out: Option<Result>)
      requires cfg.size > 0
    {
      var cp := [NewRow(s'.p, n, |ids|)];
      && s'.fill == s.fill && s'.writes == s.writes + multiset(ids) && |ids| <= cfg.size
      && (forall k :: k in ids ==> k > s.p.lastPK)
      && (EditFree(t) ==> ids <= Nulls(s.rows) && s'.rows == Fill(s.rows, ids, s.fill))
      && s'.p.total == s.p.total + |ids| && CursorMoves(s'.rows.Keys, s.p, s'.p, ids)
      && s'.p.batchNum == s.p.batchNum + (if SendsBatch(cfg, t) then 1 else 0)
      && (if SendsBatch(cfg, t) then EditFree(t) ==> |ids| == Least(cfg.size, |Nulls(s.rows)|) else ids == {})
      && (out == Some(Ok) ==> SendsBatch(cfg, t) && ids == {})
      && s'.cps == s.cps + (if Logs(t, ids != {}, s'.p.batchNum, out) then cp else []) && out != Some(QueryError)
    }

    lemma WritesStep(s0: Snapshot, s: Snapshot, s': Snapshot, ids: set<int>)
      requires WritesPast(s0, s) && s0.p.lastPK <= s.p.lastPK && s'.writes == s.writes + multiset(ids)
      requires forall k :: k in ids ==> k > s.p.lastPK
      ensures WritesPast(s0, s')
    {
    }

    lemma AddsOne(s: Snapshot, s': Snapshot, t: Turn, n: nat, ids: set<int>, out: Option<Result>)
      requires cfg.size > 0 && Iterated(t, s, s', n, ids, out) && (!cfg.cursor ==> s.p.lastPK == 0)
      ensures Adds(s.cps, s'.cps, s.p, s'.p, |ids|, n, cfg)
      ensures s'.cps != s.cps ==>
                !t.checkpointLost && Last(s'.cps) == NewRow(s'.p, n, |ids|)
    {
      EmptyOrPositive(ids);
    }

    /** Without other clients' writes: where the cursor is, and how many batches have written. */
    lemma ExactStep(env: seq<Turn>, i: nat, s0: Snapshot, s: Snapshot, s': Snapshot, n: nat, ids: set<int>,
                    out: Option<Result>)
      requires cfg.size > 0 && i < |env| && EditFreeAll(env)
      requires LoopOk(env, s0, s, n, false) && Iterated(env[i], s, s', n, ids, out)
      ensures Accounted(s0.rows, s'.rows, s0.writes, s'.writes, s'.fill)
      ensures s'.p.total + |Nulls(s'.rows)| == n && FullBatches(s'.p, n, cfg)
      ensures Steps(s'.p, n, cfg) == Steps(s.p, n, cfg) + if |ids| > 0 then 1 else 0
      ensures Located(s0.rows.Keys, s0.p.lastPK, s'.p.lastPK, Steps(s'.p, n, cfg), cfg)
      ensures |ids| > 0 ==>
                && Steps(s.p, n, cfg) == s.p.batchNum && s'.p.batchNum == s.p.batchNum + 1
                && s'.p.total == Least(s'.p.batchNum * cfg.size, n) && |ids| == s'.p.total - s.p.batchNum * cfg.size
      ensures |ids| == 0 && SendsBatch(cfg, env[i]) ==> s'.p.total == n
    {
      AccountedStep(s0.rows, s.rows, ids, s0.writes, s.writes, s.fill);
      LeftStep(s.rows, ids, s.fill);
      EmptyOrPositive(ids);
      StepsStep(s.p, s'.p, |ids|, n, cfg);
      if ids != {} && cfg.cursor {
        assert s'.rows.Keys == s0.rows.Keys;
        LocatedStep(s0.rows.Keys, s0.p.lastPK, s.p.lastPK, s'.p.lastPK, Steps(s.p, n, cfg), cfg);
      }
    }

    lemma ExactAllStep(s0: Snapshot, s: Snapshot, s': Snapshot, n: nat, ids: set<int>)
      requires cfg.size > 0 && ExactAll(s.cps, |s0.cps|, s0.rows.Keys, s0.p.lastPK, n, cfg)
      requires s'.cps == s.cps || (s'.cps == s.cps + [NewRow(s'.p, n, |ids|)])
      requires Located(s0.rows.Keys, s0.p.lastPK, s'.p.lastPK, Steps(s'.p, n, cfg), cfg)
      requires |ids| > 0 ==>
                 && Steps(s'.p, n, cfg) == s'.p.batchNum > 0 && s'.p.total == Least(s'.p.batchNum * cfg.size, n)
                 && |ids| == s'.p.total - (s'.p.batchNum - 1) * cfg.size
      requires s'.cps != s.cps && |ids| == 0 ==> s'.p.total == n
      ensures ExactAll(s'.cps, |s0.cps|, s0.rows.Keys, s0.p.lastPK, n, cfg)
    {
    }

    lemma KeptStep(s0: Snapshot, s: Snapshot, s': Snapshot, n: nat, ids: set<int>, out: Option<Result>, t: Turn)
      requires cfg.size > 0 && !t.checkpointLost && |s0.cps| <= |s.cps|
      requires Ordered(s'.cps, |s0.cps|, n, cfg) && ExactAll(s'.cps, |s0.cps|, s0.rows.Keys, s0.p.lastPK, n, cfg)
      requires Regular(s.cps, |s0.cps|, Steps(s.p, n, cfg), false, cfg) && FullBatches(s'.p, n, cfg)
      requires Steps(s'.p, n, cfg) == Steps(s.p, n, cfg) + if |ids| > 0 then 1 else 0
      requires |ids| > 0 ==> Steps(s.p, n, cfg) + 1 == s'.p.batchNum && out != Some(QueryError)
      requires s'.cps == s.cps + if Logs(t, |ids| > 0, s'.p.batchNum, out)
                                 then [NewRow(s'.p, n, |ids|)] else []
      requires out == Some(Ok) ==> s'.p.total == n && |ids| == 0
      ensures Regular(s'.cps, |s0.cps|, Steps(s'.p, n, cfg), out == Some(Ok), cfg)
      ensures |s'.cps| > |s0.cps| ==> OpensWith(s'.cps[|s0.cps|].payload, n, cfg)
    {
      RegularStep(s.cps, s'.cps, |s0.cps|, Steps(s.p, n, cfg), |ids|, out == Some(Ok), cfg);
      if |s'.cps| > |s0.cps| {
        FirstShows(s'.cps, |s0.cps|, s'.p, s0.rows.Keys, s0.p.lastPK, n, out == Some(Ok), cfg);
      }
    }

    lemma EditFreeStep(env: seq<Turn>, i: nat, s0: Snapshot, s: Snapshot, s': Snapshot, n: nat, ids: set<int>,
                       out: Option<Result>)
      requires cfg.size > 0 && i < |env| && EditFreeAll(env)
      requires LoopOk(env, s0, s, n, false) && Iterated(env[i], s, s', n, ids, out)
      requires Ordered(s'.cps, |s0.cps|, n, cfg)
      ensures Accounted(s0.rows, s'.rows, s0.writes, s'.writes, s'.fill)
      ensures s'.p.total + |Nulls(s'.rows)| == n && FullBatches(s'.p, n, cfg)
      ensures Located(s0.rows.Keys, s0.p.lastPK, s'.p.lastPK, Steps(s'.p, n, cfg), cfg)
      ensures ExactAll(s'.cps, |s0.cps|, s0.rows.Keys, s0.p.lastPK, n, cfg)
      ensures KeptAll(env) ==>
                && Regular(s'.cps, |s0.cps|, Steps(s'.p, n, cfg), out == Some(Ok), cfg)
                && (|s'.cps| > |s0.cps| ==> OpensWith(s'.cps[|s0.cps|].payload, n, cfg))
    {
      ExactStep(env, i, s0, s, s', n, ids, out);
      EmptyOrPositive(ids);
      ExactAllStep(s0, s, s', n, ids);
      if KeptAll(env) {
        KeptStep(s0, s, s', n, ids, out, env[i]);
      }
    }

    lemma LoopStep(env: seq<Turn>, i: nat, s0: Snapshot, s: Snapshot, s': Snapshot, n: nat, ids: set<int>,
                   out: Option<Result>)
      requires cfg.size > 0 && i < |env| && (!cfg.cursor ==> s0.p.lastPK == s.p.lastPK == 0)
      requires LoopOk(env, s0, s, n, false) && Iterated(env[i], s, s', n, ids, out)
      ensures LoopOk(env, s0, s', n, out == Some(Ok))
    {
      WritesStep(s0, s, s', ids);
      AddsOne(s, s', env[i], n, ids, out);
      OrderedStep(s.cps, s'.cps, |s0.cps|, s.p, s'.p, |ids|, n, out == Some(Ok), cfg);
      if EditFreeAll(env) {
        EditFreeStep(env, i, s0, s, s', n, ids, out);
      }
    }

    /** Undisturbed, the loop is on pace, and returns exactly when the rows are used up. */
    ghost predicate PacedOk(env: seq<Turn>, p: Loop, i: nat, n: nat)
      requires cfg.size > 0
    {
      QuietAll(cfg, env) && cfg.doneExpected == 0 ==> Paced(p, i, n, cfg)
    }

    ghost predicate Finished(env: seq<Turn>, p: Loop, n: nat)
      requires cfg.size > 0
    {
      QuietAll(cfg, env) && cfg.doneExpected == 0 ==>
        p.batchNum == CeilDiv(n, cfg.size) + 1 && p.slept == CeilDiv(n, cfg.size) * Most(cfg.delayMs, 0)
    }

    lemma PaceStep(env: seq<Turn>, i: nat, s: Snapshot, s': Snapshot, n: nat, ids: set<int>, out: Option<Result>)
      requires cfg.size > 0 && i < |env| && PacedOk(env, s.p, i, n)
      requires EditFreeAll(env) ==> s.p.total + |Nulls(s.rows)| == n
      requires s'.p.total == s.p.total + |ids| && InPace(env[i], s, s', ids, out)
      ensures out.None? ==> PacedOk(env, s'.p, i + 1, n)
      ensures QuietAll(cfg, env) && cfg.doneExpected == 0 ==> out == None || out == Some(Ok)
      ensures QuietAll(cfg, env) && cfg.doneExpected == 0 && out.None? ==> i < CeilDiv(n, cfg.size)
      ensures out == Some(Ok) ==> Finished(env, s'.p, n)
    {
      if QuietAll(cfg, env) && cfg.doneExpected == 0 {
        assert EditFreeAll(env);
        EmptyOrPositive(ids);
        PacedStep(s.p, s'.p, i, n, |ids|, out.None?, cfg);
      }
    }

    /** What an undisturbed iteration does. */
    ghost predicate InPace(t: Turn, s: Snapshot, s': Snapshot, ids: set<int>, out: Option<Result>)
      requires cfg.size > 0
    {
      Quiet(cfg, t) ==>
        && |ids| == (if cfg.size < |Nulls(s.rows)| then cfg.size else |Nulls(s.rows)|)
        && (cfg.doneExpected == 0 ==> out == if ids == {} then Some(Ok) else None)
        && s'.p.batchNum == s.p.batchNum + 1
        && s'.p.slept == s.p.slept + (if out.None? then Most(cfg.delayMs, 0) else 0)
    }

    lemma QuietIsInPace(t: Turn, s: Snapshot, s': Snapshot, ids: set<int>, out: Option<Result>)
      requires cfg.size > 0 && Returns(t, ids != {}, |Nulls(s'.rows)|, out) && out != Some(QueryError)
      requires EditFree(t) ==> ids <= Nulls(s.rows) && s'.rows == Fill(s.rows, ids, s.fill)
      requires SendsBatch(cfg, t) ==>
                 && (EditFree(t) ==> |ids| == Least(cfg.size, |Nulls(s.rows)|))
                 && s'.p.batchNum == s.p.batchNum + 1
                 && s'.p.slept == s.p.slept + if out == Some(Ok) then 0 else Most(cfg.delayMs, 0)
      ensures InPace(t, s, s', ids, out)
    {
      if Quiet(cfg, t) {
        EmptyOrPositive(ids);
        LeftStep(s.rows, ids, s.fill);
        match out
        case None =>
        case Some(r) => assert r.Ok? || r.Interrupted? || r.QueryError?;
      }
    }

    /** The accounts after iteration i. */
    ghost predicate RoundOk(env: seq<Turn>, i: nat, s0: Snapshot, s: Snapshot, n: nat, out: Option<Result>)
      requires cfg.size > 0
    {
      && (if out.Some? then LoopEnds(env, s0, s, n, out.value) else LoopOk(env, s0, s, n, false))
      && (out == Some(Ok) ==> Finished(env, s.p, n))
      && (out.None? ==> PacedOk(env, s.p, i + 1, n))
      && (QuietAll(cfg, env) && cfg.doneExpected == 0 ==>
            if i < CeilDiv(n, cfg.size) then out == None else out == Some(Ok))
    }

    lemma RoundFails(env: seq<Turn>, i: nat, s0: Snapshot, s: Snapshot, s': Snapshot, n: nat, ids: set<int>)
      requires cfg.size > 0 && i < |env| && LoopOk(env, s0, s, n, false)
      requires s'.cps == s.cps && s'.writes == s.writes + multiset(ids) && s'.fill == s.fill && !Quiet(cfg, env[i])
      requires forall k :: k in ids ==> k > s.p.lastPK
      requires EditFree(env[i]) ==> ids <= Nulls(s.rows) && s'.rows == Fill(s.rows, ids, s.fill)
      ensures RoundOk(env, i, s0, s', n, Some(QueryError))
    {
      WritesStep(s0, s, s', ids);
      if EditFreeAll(env) {
        AccountedStep(s0.rows, s.rows, ids, s0.writes, s.writes, s.fill);
      }
    }

    lemma RoundEnds(env: seq<Turn>, i: nat, s0: Snapshot, s: Snapshot, s': Snapshot, n: nat, ids: set<int>,
                    out: Option<Result>)
      requires cfg.size > 0 && i < |env| && out != Some(QueryError)
      requires !cfg.cursor ==> s0.p.lastPK == s.p.lastPK == 0
      requires LoopOk(env, s0, s, n, false) && PacedOk(env, s.p, i, n)
      requires Iterated(env[i], s, s', n, ids, out) && InPace(env[i], s, s', ids, out)
      ensures RoundOk(env, i, s0, s', n, out)
    {
      LoopStep(env, i, s0, s, s', n, ids, out);
      PaceStep(env, i, s, s', n, ids, out);
    }

    /** One iteration with its accounts. */
    method Round(db: Target, cps: Checkpoints, env: seq<Turn>, i: nat, p: Loop, n: nat, ghost s0: Snapshot)
      returns (q: Loop, out: Option<Result>)
      requires db.Valid() && Resumable(db, cps) && db.Reached(p.lastPK) && cfg.size > 0 && i < |env|
      requires LoopOk(env, s0, Snapshot(db.rows, db.writes, cps.rows, p, db.fill), n, false)
      requires PacedOk(env, p, i, n) && (!cfg.cursor ==> s0.p.lastPK == p.lastPK == 0)
      modifies db`rows, db`nextId, db`writes, db`touched, cps
      ensures db.Valid() && Resumable(db, cps) && db.Reached(q.lastPK)
      ensures db.touched <= old(db.touched) + TouchedBy(env[i])
      ensures RoundOk(env, i, s0, Snapshot(db.rows, db.writes, cps.rows, q, db.fill), n, out)
      ensures out == Some(Ok) ==> |Nulls(db.rows)| == cfg.doneExpected
      ensures out == Some(Ok) && EditFreeAll(env) ==> Nulls(db.rows) == {}
      ensures out == Some(QueryError) ==> env[i].batch.Lost? || env[i].queryFails
      ensures out == Some(Interrupted) ==> env[i].cancelled || env[i].cut
      ensures out.None? ==>
                && q.batchNum == p.batchNum + (if SendsBatch(cfg, env[i]) then 1 else 0)
                && (!cfg.cursor ==> q.lastPK == p.lastPK)
    {
      ghost var s := Snapshot(db.rows, db.writes, cps.rows, p, db.fill);
      ghost var ids;
      q, out, ids := Iterate(db, cps, env[i], p, n);
      ghost var s' := Snapshot(db.rows, db.writes, cps.rows, q, db.fill);
      if out == Some(QueryError) {
        RoundFails(env, i, s0, s, s', n, ids);
      } else {
        QuietIsInPace(env[i], s, s', ids, out);
        RoundEnds(env, i, s0, s, s', n, ids, out);
      }
    }

    lemma LoopStart(env: seq<Turn>, s: Snapshot, n: nat)
      requires cfg.size > 0 && n == |Nulls(s.rows)| && s.p == Loop(s.p.lastPK, 0, 0, 0, 0, 0)
      requires !cfg.cursor ==> s.p.lastPK == 0
      ensures LoopOk(env, s, s, n, false) && PacedOk(env, s.p, 0, n)
    {
      AccountedStart(s.rows, s.writes, s.fill);
      assert Between(s.rows.Keys, s.p.lastPK, s.p.lastPK) == {};
    }

    /** Why the loop has ended: with an error only if a statement failed, and interrupted only if the context was
        cancelled, be it after all turns have sent the batches they should. */
    ghost predicate Caused(env: seq<Turn>, r: Result, p: Loop) {
      match r
      case QueryError => exists i :: 0 <= i < |env| && (env[i].batch.Lost? || env[i].queryFails)
      case Interrupted =>
        p.batchNum == BatchesSent(cfg, env) || exists i :: 0 <= i < |env| && (env[i].cancelled || env[i].cut)
      case Ok => true
    }

    /** The loop. The context is cancelled when `env` runs out. */
    method RunLoop(db: Target, cps: Checkpoints, env: seq<Turn>, p0: Loop, n: nat) returns (r: Result, p: Loop)
      requires db.Valid() && Resumable(db, cps) && db.Reached(p0.lastPK) && cfg.size > 0
      requires p0 == Loop(p0.lastPK, 0, 0, 0, 0, 0) && n == |Nulls(db.rows)| && (!cfg.cursor ==> p0.lastPK == 0)
      modifies db`rows, db`nextId, db`writes, db`touched, cps
      ensures db.Valid() && Resumable(db, cps)
      ensures db.touched <= old(db.touched) + TouchedByAll(env)
      ensures LoopEnds(env, Snapshot(old(db.rows), old(db.writes), old(cps.rows), p0, db.fill),
                       Snapshot(db.rows, db.writes, cps.rows, p, db.fill), n, r)
      ensures Caused(env, r, p)
      ensures r == Ok ==> |Nulls(db.rows)| == cfg.doneExpected && Finished(env, p, n)
      ensures r == Ok && EditFreeAll(env) ==> Nulls(db.rows) == {}
      ensures QuietAll(cfg, env) && cfg.doneExpected == 0 ==>
                if |env| > CeilDiv(n, cfg.size) then r == Ok else r == Interrupted && Paced(p, |env|, n, cfg)
    {
      p := p0;
      ghost var s0 := Snapshot(db.rows, db.writes, cps.rows, p0, db.fill);
      LoopStart(env, s0, n);
      for i := 0 to |env|
        invariant db.Valid() && Resumable(db, cps) && db.Reached(p.lastPK)
        invariant db.touched <= old(db.touched) + TouchedByAll(env)
        invariant LoopOk(env, s0, Snapshot(db.rows, db.writes, cps.rows, p, db.fill), n, false)
        invariant PacedOk(env, p, i, n) && (!cfg.cursor ==> p.lastPK == 0)
        invariant p.batchNum == BatchesSent(cfg, env[..i])
        invariant QuietAll(cfg, env) && cfg.doneExpected == 0 ==> i <= CeilDiv(n, cfg.size)
      {
        var out;
        TouchedByOne(env, i);
        assert env[..i + 1][..i] == env[..i];
        p, out := Round(db, cps, env, i, p, n, s0);
        if out.Some? {
          return out.value, p;
        }
      }
      assert env[..|env|] == env;
      return Interrupted, p;
    }

    /** The position an execution resumes from: that of its attempt's latest checkpoint, if it has one that can be
        read; 0 otherwise, and without pk_cursor_query. */
    ghost function ResumePK(rows: seq<CheckpointRow<BackfillCheckpoint>>, start: StartFaults): int {
      var cp := LatestCheckpoint(rows, phase, attempt);
      if cfg.cursor && start != Unreadable && cp.Some? then cp.value.payload.lastPK else 0
    }

    /** Up to the loop: the initial done_when count, and the position to start from; None if either query fails. */
    method Begin(db: Target, cps: Checkpoints, start: StartFaults) returns (p: Option<Loop>)
      requires db.Valid() && Resumable(db, cps)
      ensures p.None? <==> start == CountFails || (cfg.cursor && start == LoadFails)
      ensures p.Some? ==> p.value == Loop(ResumePK(cps.rows, start), 0, 0, 0, 0, 0) && db.Reached(p.value.lastPK)
    {
      if start == CountFails {
        return None;
      }
      var lastPK := 0;
      if cfg.cursor {
        if start == LoadFails {
          return None;
        }
        var cp := LatestCheckpoint(cps.rows, phase, attempt);
        LatestCheckpointIsRow(cps.rows, phase, attempt);
        if cp.Some? && start != Unreadable {
          lastPK := cp.value.payload.lastPK;
        }
      }
      return Some(Loop(lastPK, 0, 0, 0, 0, 0));
    }

    /** What status can show of an execution whenever the loop is left at its head or with nil. */
    lemma LoopSays(env: seq<Turn>, s0: Snapshot, s: Snapshot, n: nat, r: Result)
      requires cfg.size > 0 && LoopEnds(env, s0, s, n, r) && EditFreeAll(env)
      requires r == Ok ==> Nulls(s.rows) == {}
      ensures Ascending(s.cps, |s0.cps|, n, n)
      ensures KeptAll(env) && r != QueryError && |s.cps| > |s0.cps| ==>
                Lag(Last(s.cps).payload, |Nulls(s.rows)|, s.p.batchNum, cfg)
    {
      OrderedAscends(s.cps, |s0.cps|, s0.rows.Keys, s0.p.lastPK, n, cfg);
      if KeptAll(env) && r != QueryError && |s.cps| > |s0.cps| {
        LagFollows(s.cps, |s0.cps|, s.p, s0.rows.Keys, s0.p.lastPK, n, |Nulls(s.rows)|, r == Ok, cfg);
      }
    }

    /** `Execute`: count, resume, loop. The context is cancelled when `env` runs out. */
    method Execute(db: Target, cps: Checkpoints, start: StartFaults, env: seq<Turn>) returns (r: Result, p: Loop)
      requires db.Valid() && Resumable(db, cps) && cfg.size > 0
      modifies db`rows, db`nextId, db`writes, db`touched, cps
      ensures db.Valid() && Resumable(db, cps) && old(cps.rows) <= cps.rows
      ensures db.touched <= old(db.touched) + TouchedByAll(env)
      ensures r == Ok ==> |Nulls(db.rows)| == cfg.doneExpected
      ensures start == CountFails || (cfg.cursor && start == LoadFails) ==>
                r == QueryError && db.rows == old(db.rows) && db.writes == old(db.writes) && cps.rows == old(cps.rows)
      ensures start == NoStartFault || start == Unreadable ==> Caused(env, r, p)
      // It writes no row at or before the position it resumes from.
      ensures forall k :: db.writes[k] > old(db.writes)[k] ==> k > ResumePK(old(cps.rows), start)
      // Without writes of other clients: part of the one UPDATE, each row written once, and counted.
      ensures EditFreeAll(env) ==> Accounted(old(db.rows), db.rows, old(db.writes), db.writes, db.fill)
      ensures EditFreeAll(env) && r == Ok ==> Nulls(db.rows) == {} && p.total == |Nulls(old(db.rows))|
      ensures EditFreeAll(env) && r != QueryError ==> p.total + |Nulls(db.rows)| == |Nulls(old(db.rows))|
      // Undisturbed: one batch for every `size` NULL rows or part of it, one that finds nothing, and then nil.
      ensures QuietAll(cfg, env) && start == NoStartFault && cfg.doneExpected == 0 ==>
                var full := CeilDiv(|Nulls(old(db.rows))|, cfg.size);
                && (r == Ok ==> p.batchNum == full + 1 && p.slept == full * Most(cfg.delayMs, 0))
                && (|env| > full ==> r == Ok)
                && (|env| <= full ==> r == Interrupted && Paced(p, |env|, |Nulls(old(db.rows))|, cfg))
      // The checkpoints it adds, whatever happens; what they say without writes of other clients; and how many.
      ensures Ordered(cps.rows, |old(cps.rows)|, |Nulls(old(db.rows))|, cfg)
      ensures forall i :: |old(cps.rows)| <= i < |cps.rows| ==>
                cps.rows[i].phase == phase && cps.rows[i].attempt == attempt
      ensures EditFreeAll(env) ==>
                ExactAll(cps.rows, |old(cps.rows)|, old(db.rows).Keys, ResumePK(old(cps.rows), start),
                         |Nulls(old(db.rows))|, cfg)
      ensures EditFreeAll(env) && r != QueryError ==>
                Located(old(db.rows).Keys, ResumePK(old(cps.rows), start), p.lastPK,
                        Steps(p, |Nulls(old(db.rows))|, cfg), cfg)
      ensures EditFreeAll(env) && KeptAll(env) && r != QueryError ==>
                Regular(cps.rows, |old(cps.rows)|, Steps(p, |Nulls(old(db.rows))|, cfg), r == Ok, cfg)
      // What status can show of it whenever the loop is left at its head or with nil.
      ensures EditFreeAll(env) && KeptAll(env) && r != QueryError && |cps.rows| > |old(cps.rows)| ==>
                Lag(Last(cps.rows).payload, |Nulls(db.rows)|, p.batchNum, cfg)
      ensures EditFreeAll(env) ==>
                Ascending(cps.rows, |old(cps.rows)|, |Nulls(old(db.rows))|, |Nulls(old(db.rows))|)
      ensures EditFreeAll(env) && KeptAll(env) && |cps.rows| > |old(cps.rows)| ==>
                OpensWith(cps.rows[|old(cps.rows)|].payload, |Nulls(old(db.rows))|, cfg)
    {
      AccountedStart(db.rows, db.writes, db.fill);
      var begun := Begin(db, cps, start);
      if begun.None? {
        return QueryError, Loop(0, 0, 0, 0, 0, 0);
      }
      var nullAtStart := |Nulls(db.rows)|;
      ghost var s0 := Snapshot(db.rows, db.writes, cps.rows, begun.value, db.fill);
      r, p := RunLoop(db, cps, env, begun.value, nullAtStart);
      if EditFreeAll(env) {
        LoopSays(env, s0, Snapshot(db.rows, db.writes, cps.rows, p, db.fill), nullAtStart, r);
      }
    }
  }

  function QuietTurn(): Turn {
    Turn(false, None, [], NoFault, map[], [], false, false, false)
  }

  /** A fresh attempt that nothing disturbs: how far its final cursor is. It has passed as many ids as its batches had
      room for, of rows of any kind. */
  method FinalCursor(db: Target, cps: Checkpoints, executor: BackfillExecutor, env: seq<Turn>)
    returns (r: Result, p: Loop)
    requires db.Valid() && Resumable(db, cps) && executor.cfg.size > 0 && executor.cfg.doneExpected == 0
    requires QuietAll(executor.cfg, env) && |env| > CeilDiv(|Nulls(db.rows)|, executor.cfg.size)
    requires LatestCheckpoint(cps.rows, executor.phase, executor.attempt).None?
    modifies db`rows, db`nextId, db`writes, db`touched, cps
    ensures r == Ok && Nulls(db.rows) == {}
    ensures Accounted(old(db.rows), db.rows, old(db.writes), db.writes, db.fill)
    ensures executor.cfg.cursor ==> forall k :: k in old(db.rows) ==>
              (k <= p.lastPK <==>
               |Between(old(db.rows).Keys, 0, k)|
               <= CeilDiv(|Nulls(old(db.rows))|, executor.cfg.size) * executor.cfg.size)
  {
    ghost var ids, steps := db.rows.Keys, CeilDiv(|Nulls(db.rows)|, executor.cfg.size);
    assert forall k :: k in ids ==> k > 0;
    r, p := executor.Execute(db, cps, NoStartFault, env);
    if executor.cfg.cursor {
      forall k | k in ids
        ensures k <= p.lastPK <==> |Between(ids, 0, k)| <= steps * executor.cfg.size
      {
        PassedIff(ids, 0, p.lastPK, steps, k, executor.cfg);
      }
    }
  }

  lemma WrittenOnce(t0: Rows, t: Rows, w: multiset<int>, k: int, fill: int -> int)
    requires Accounted(t0, t, multiset{}, w, fill) && Nulls(t) == {} && k in Nulls(t0)
    ensures w[k] == 1
  {
    FilledIsUpdateAll(t0, t, fill);
    assert w == multiset(Written(t0, t));
  }

  /** The cursor counts rows of any kind, the batch NULL rows only, so what a batch writes can lie past the cursor that
      follows it, and past that of nil: rows 1 and 2 are filled, row 3 is not, and batches are of one. */
  method StopsShortOfWritten() returns (db: Target, r: Result, p: Loop)
    ensures r == Ok && db.writes[3] == 1 && p.lastPK < 3
  {
    db := new Target(map[1 := Row(0, Some(0)), 2 := Row(0, Some(0)), 3 := Row(0, None)], 4, x => x);
    var cps := new Checkpoints();
    var executor := new BackfillExecutor(BatchConfig(1, 0, 0, 1, true, 0), "backfill", 1);
    assert Nulls(db.rows) == {3} && db.rows.Keys == {1, 2, 3} && 3 in db.rows;
    assert Between({1, 2, 3}, 0, 3) == {1, 2, 3};
    ghost var table0 := db.rows;
    CeilDivIs(1, 1, 1);
    r, p := FinalCursor(db, cps, executor, [QuietTurn(), QuietTurn()]);
    WrittenOnce(table0, db.rows, db.writes, 3, db.fill);
  }

  /** One execution: under which attempt, how it starts, what happens while it runs. */
  datatype RunInput = RunInput(attempt: nat, start: StartFaults, env: seq<Turn>)

  lemma AccountedTrans(t0: Rows, t1: Rows, t2: Rows, w0: multiset<int>, w1: multiset<int>, w2: multiset<int>,
                       fill: int -> int)
    requires Accounted(t0, t1, w0, w1, fill) && Accounted(t1, t2, w1, w2, fill)
    ensures Accounted(t0, t2, w0, w2, fill)
  {
    forall k | k in t0
      ensures t2[k] == t0[k] || t2[k] == UpdateAll(t0, fill)[k]
      ensures k in Written(t0, t2) <==> k in Written(t0, t1) || k in Written(t1, t2)
    {
      assert t1[k] == t0[k] || t1[k] == UpdateAll(t0, fill)[k];
      assert t2[k] == t1[k] || t2[k] == UpdateAll(t1, fill)[k];
    }
    assert Written(t0, t2) == Written(t0, t1) + Written(t1, t2);
    assert Written(t0, t1) !! Written(t1, t2);
    assert multiset(Written(t0, t1) + Written(t1, t2)) == multiset(Written(t0, t1)) + multiset(Written(t1, t2));
  }

  function TouchedByRuns(runs: seq<RunInput>): set<int> {
    set i, k | 0 <= i < |runs| && k in TouchedByAll(runs[i].env) :: k
  }

  lemma TouchedByOneRun(runs: seq<RunInput>, i: nat)
    requires i < |runs|
    ensures TouchedByAll(runs[i].env) <= TouchedByRuns(runs)
  {
    assert forall k :: k in TouchedByAll(runs[i].env) ==> k in TouchedByRuns(runs);
  }

  /** Any number of executions, each interrupted anywhere, each resumed from the latest checkpoint of its attempt or
      from zero, while other clients write to the table. If the last returns nil and done_when asks for no NULL row,
      every row of the table that nobody else has touched is what one UPDATE of its NULL rows would have made of it,
      and has been written exactly once if it was NULL and never otherwise. Without outside writes that is the whole
      table. */
  method RunUntilNil(db: Target, cps: Checkpoints, cfg: BatchConfig, phase: string, runs: seq<RunInput>)
    returns (r: Result)
    requires db.Valid() && Resumable(db, cps) && cfg.size > 0
    modifies db`rows, db`nextId, db`writes, db`touched, cps
    ensures db.Valid() && Resumable(db, cps) && db.touched <= old(db.touched) + TouchedByRuns(runs)
    ensures r == Ok ==> |Nulls(db.rows)| == cfg.doneExpected
    ensures r == Ok && cfg.doneExpected == 0 ==>
              forall k :: k in db.origin && k !in db.touched ==>
                && k in db.rows && db.rows[k] == UpdateAll(db.origin, db.fill)[k]
                && db.writes[k] == if db.origin[k].val.None? then 1 else 0
    ensures (forall i :: 0 <= i < |runs| ==> EditFreeAll(runs[i].env)) ==>
              && PartlyFilled(old(db.rows), db.rows, db.fill)
              && (r == Ok ==>
                    && db.rows == UpdateAll(old(db.rows), db.fill)
                    && db.writes == old(db.writes) + multiset(Nulls(old(db.rows))))
  {
    r := Interrupted;
    ghost var editFree := forall i :: 0 <= i < |runs| ==> EditFreeAll(runs[i].env);
    AccountedStart(db.rows, db.writes, db.fill);
    for i := 0 to |runs|
      invariant db.Valid() && Resumable(db, cps) && db.touched <= old(db.touched) + TouchedByRuns(runs)
      invariant editFree ==> Accounted(old(db.rows), db.rows, old(db.writes), db.writes, db.fill)
      invariant r == Ok ==> |Nulls(db.rows)| == cfg.doneExpected && (editFree ==> Nulls(db.rows) == {})
    {
      ghost var rows1, writes1 := db.rows, db.writes;
      TouchedByOneRun(runs, i);
      var executor := new BackfillExecutor(cfg, phase, runs[i].attempt);
      var p;
      r, p := executor.Execute(db, cps, runs[i].start, runs[i].env);
      if editFree {
        AccountedTrans(old(db.rows), rows1, db.rows, old(db.writes), writes1, db.writes, db.fill);
      }
    }
    if r == Ok && editFree {
      FilledIsUpdateAll(old(db.rows), db.rows, db.fill);
    }
    if r == Ok && cfg.doneExpected == 0 {
      FollowsToTheEnd(db.origin, db.touched, db.rows, db.writes, db.fill);
    }
  }
}
