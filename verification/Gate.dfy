/** The gate (internal/phase/gate.go): poll a count until it reads as expected, with a deadline, capped backoff on
    transient errors and a limit on how many of those may come in a row. Times are milliseconds of one clock. */
module Gate {
  import opened Arithmetic
  import opened Store

  const DEFAULT_TIMEOUT := 120 * 60_000
  const DEFAULT_POLL := 5_000
  const MAX_TRANSIENT := 5

  /** What QueryScalar gives back. `code` is what a method Number() of the error returns, if it has one. */
  datatype Reply = Value(v: int) | Failed(code: Option<int>)

  /** What happens around the n-th pass of the loop: how long the query takes, how much later than asked a sleep
      ends, whether the context is cancelled before the query, and how far into the sleep it is cancelled. */
  datatype Turn = Turn(reply: Reply, took: nat, late: nat, cancelled: bool, cancelledAsleep: Option<nat>)

  datatype Outcome = Passed | TimedOut | Cancelled | TooManyTransients | Fatal

  /** One query sent: when, what came back, and the sleep asked for afterwards (0 when there is none). */
  datatype Query = Query(at: int, reply: Reply, pause: nat)

  predicate IsTransient(reply: Reply) {
    reply.Failed? && reply.code.Some? && reply.code.value in {1040, 1205, 2003, 2006}
  }

  function Timeout(minutes: int): int { if minutes == 0 then DEFAULT_TIMEOUT else minutes * 60_000 }

  function Interval(pollMs: nat): nat { if pollMs == 0 then DEFAULT_POLL else pollMs }

  /** How many of the first n queries, counted back from the n-th without a break, met a transient error. */
  function Streak(trace: seq<Query>, n: nat): nat
    requires n <= |trace|
  {
    if n == 0 || !IsTransient(trace[n - 1].reply) then 0 else 1 + Streak(trace, n - 1)
  }

  /** The i-th query left the loop running: another value, or a transient error that is not the fifth in a row,
      and the sleep that goes with it. */
  predicate GoesOn(trace: seq<Query>, i: nat, expected: int, poll: nat)
    requires i < |trace|
  {
    match trace[i].reply
    case Value(v) => v != expected && trace[i].pause == poll
    case Failed(_) =>
      && IsTransient(trace[i].reply)
      && Streak(trace, i + 1) < MAX_TRANSIENT
      && trace[i].pause == Backoff(poll, Streak(trace, i + 1))
  }

  ghost predicate AllGoOn(trace: seq<Query>, n: nat, expected: int, poll: nat)
    requires n <= |trace|
  {
    forall i :: 0 <= i < n ==> GoesOn(trace, i, expected, poll)
  }

  /** The queries are sent from `start` on, each after the sleep that follows the one before, none after `deadline`. */
  ghost predicate Spaced(trace: seq<Query>, start: int, deadline: int) {
    && (trace != [] ==> start <= trace[0].at)
    && (forall i :: 0 <= i < |trace| ==> trace[i].at <= deadline)
    && (forall i, j :: 0 <= i < j < |trace| ==> trace[i].at + trace[i].pause <= trace[j].at)
  }

  /** Which outcome belongs to which sequence of replies: the first decisive reply ends the gate, and only that. */
  ghost predicate Decided(r: Outcome, trace: seq<Query>, expected: int, poll: nat) {
    match r
    case TimedOut => AllGoOn(trace, |trace|, expected, poll)
    case Cancelled => AllGoOn(trace, |trace|, expected, poll)
    case Passed =>
      trace != [] && AllGoOn(trace, |trace| - 1, expected, poll) && Last(trace).reply == Value(expected)
    case TooManyTransients =>
      trace != [] && AllGoOn(trace, |trace| - 1, expected, poll) && Streak(trace, |trace|) == MAX_TRANSIENT
    case Fatal =>
      trace != [] && AllGoOn(trace, |trace| - 1, expected, poll)
      && Last(trace).reply.Failed? && !IsTransient(Last(trace).reply)
  }

  ghost predicate Prompt(env: nat -> Turn, slack: nat) {
    forall n: nat :: env(n).took + env(n).late <= slack
  }

  lemma {:induction false} StreakAppend(trace: seq<Query>, q: Query, n: nat)
    requires n <= |trace|
    ensures Streak(trace + [q], n) == Streak(trace, n)
    ensures Streak(trace + [q], |trace| + 1) == if IsTransient(q.reply) then Streak(trace + [q], |trace|) + 1 else 0
  {
    if n > 0 {
      StreakAppend(trace, q, n - 1);
    }
  }

  lemma AllGoOnAppend(trace: seq<Query>, q: Query, n: nat, expected: int, poll: nat)
    requires n <= |trace|
    ensures AllGoOn(trace, n, expected, poll) <==> AllGoOn(trace + [q], n, expected, poll)
  {
    forall i | 0 <= i < n ensures GoesOn(trace, i, expected, poll) <==> GoesOn(trace + [q], i, expected, poll) {
      StreakAppend(trace, q, i + 1);
    }
  }

  /** A run of n transient errors is what Streak counts. */
  lemma {:induction false} StreakCovers(trace: seq<Query>, end: nat, n: nat)
    requires n <= end <= |trace|
    requires forall j :: end - n <= j < end ==> IsTransient(trace[j].reply)
    ensures n <= Streak(trace, end)
  {
    if n > 0 {
      StreakCovers(trace, end - 1, n - 1);
    }
  }

  /** Five transient errors in a row are never followed by a sleep or another query. */
  lemma NeverSleepsAfterFive(trace: seq<Query>, r: Outcome, expected: int, poll: nat, i: nat)
    requires Decided(r, trace, expected, poll)
    requires i + 5 <= |trace|
    requires forall j :: i <= j < i + 5 ==> IsTransient(trace[j].reply)
    ensures i + 5 == |trace| && r == TooManyTransients
  {
    StreakCovers(trace, i + 5, 5);
    var last := i + 4;
    assert IsTransient(trace[last].reply) && !GoesOn(trace, last, expected, poll);
  }

  /** A reply decides the outcome on its own: the gate passes exactly when its last read is the expected value. */
  lemma PassesOnExpectedReadOnly(trace: seq<Query>, r: Outcome, expected: int, poll: nat)
    requires Decided(r, trace, expected, poll)
    ensures r == Passed <==> exists i :: 0 <= i < |trace| && trace[i].reply == Value(expected)
    ensures r == Passed ==> forall i :: 0 <= i < |trace| - 1 ==> trace[i].reply != Value(expected)
  {
    if r == Passed {
      assert trace[|trace| - 1].reply == Value(expected);
    }
    forall i | 0 <= i < |trace| && trace[i].reply == Value(expected) ensures r == Passed && i == |trace| - 1 {
      assert !GoesOn(trace, i, expected, poll);
    }
  }

  /** An error without a method Number() is never transient. If no error has one, the first failed query is the last. */
  lemma UnnumberedErrorsAreFatal(trace: seq<Query>, r: Outcome, expected: int, poll: nat)
    requires Decided(r, trace, expected, poll)
    requires forall i :: 0 <= i < |trace| && trace[i].reply.Failed? ==> trace[i].reply.code.None?
    ensures r != TooManyTransients
    ensures r == Fatal <==> exists i :: 0 <= i < |trace| && trace[i].reply.Failed?
    ensures forall i :: 0 <= i < |trace| - 1 ==> trace[i].reply.Value?
  {
    forall i | 0 <= i < |trace| && trace[i].reply.Failed?
      ensures r == Fatal && i == |trace| - 1
    {
      assert !GoesOn(trace, i, expected, poll);
    }
    if r == Fatal {
      assert trace[|trace| - 1].reply.Failed?;
    }
  }

  /** The shortest sleep is Least(poll, 60 s), so the deadline bounds the number of queries. */
  lemma {:induction false} QueriesTakeTime(trace: seq<Query>, start: int, deadline: int, expected: int, poll: nat)
    requires trace != [] && Spaced(trace, start, deadline) && AllGoOn(trace, |trace| - 1, expected, poll)
    ensures (|trace| - 1) * Least(poll, MAX_BACKOFF) <= Last(trace).at - start
  {
    if |trace| > 1 {
      var before := trace[..|trace| - 1];
      assert trace == before + [Last(trace)];
      AllGoOnAppend(before, Last(trace), |before| - 1, expected, poll);
      QueriesTakeTime(before, start, deadline, expected, poll);
      assert GoesOn(trace, |trace| - 2, expected, poll);
      assert Last(before).pause >= Least(poll, MAX_BACKOFF);
      assert (|trace| - 1) * Least(poll, MAX_BACKOFF)
          == (|before| - 1) * Least(poll, MAX_BACKOFF) + Least(poll, MAX_BACKOFF);
    }
  }

  lemma QuotientBound(n: nat, m: nat, t: int)
    requires m > 0 && n * m <= t
    ensures n <= t / m
  {
    var q := t / m;
    assert t < m * q + m;
    assert (n - q - 1) * m < 0;
  }

  /** The loop's state after the sleep: every query so far left it running. */
  ghost predicate Waited(trace: seq<Query>, now: int, start: int, deadline: int, expected: int, poll: nat, slack: nat) {
    && start <= now
    && Spaced(trace, start, deadline)
    && AllGoOn(trace, |trace|, expected, poll)
    && Streak(trace, |trace|) < MAX_TRANSIENT
    && (if trace == [] then now == start
        else Last(trace).at + Last(trace).pause <= now <= Last(trace).at + Most(poll, MAX_BACKOFF) + slack)
  }

  lemma SendsOnTime(trace: seq<Query>, q: Query, start: int, deadline: int, expected: int, poll: nat, slack: nat)
    requires Waited(trace, q.at, start, deadline, expected, poll, slack) && q.at <= deadline
    ensures Spaced(trace + [q], start, deadline) && AllGoOn(trace + [q], |trace|, expected, poll)
    ensures Last(trace + [q]) == q
    ensures Streak(trace + [q], |trace| + 1) == if IsTransient(q.reply) then Streak(trace, |trace|) + 1 else 0
  {
    AllGoOnAppend(trace, q, |trace|, expected, poll);
    StreakAppend(trace, q, |trace|);
  }

  /** A query that leaves the loop running, and the sleep after it. */
  lemma WaitsAgain(trace: seq<Query>, q: Query, start: int, deadline: int, expected: int, poll: nat, slack: nat,
                   took: nat, late: nat)
    requires Waited(trace, q.at, start, deadline, expected, poll, slack) && q.at <= deadline
    requires GoesOn(trace + [q], |trace|, expected, poll) && took + late <= slack
    ensures Waited(trace + [q], q.at + took + q.pause + late, start, deadline, expected, poll, slack)
  {
    SendsOnTime(trace, q, start, deadline, expected, poll, slack);
    assert q.pause <= Most(poll, MAX_BACKOFF);
  }

  /** A query that leaves the loop running, after `errors` transient errors in a row. */
  predicate Continues(q: Query, errors: nat, expected: int, poll: nat) {
    match q.reply
    case Value(v) => v != expected && q.pause == poll
    case Failed(_) => IsTransient(q.reply) && errors + 1 < MAX_TRANSIENT && q.pause == Backoff(poll, errors + 1)
  }

  lemma GoesOnAfter(trace: seq<Query>, q: Query, expected: int, poll: nat)
    requires Continues(q, Streak(trace, |trace|), expected, poll)
    ensures GoesOn(trace + [q], |trace|, expected, poll)
    ensures Streak(trace + [q], |trace| + 1) == if q.reply.Failed? then Streak(trace, |trace|) + 1 else 0
  {
    StreakAppend(trace, q, |trace|);
  }

  /** What is promised of a finished gate that started at `start`. */
  ghost predicate Report(r: Outcome, end: int, trace: seq<Query>, start: int, deadline: int, expected: int,
                         poll: nat, slack: nat) {
    && Decided(r, trace, expected, poll)
    && Spaced(trace, start, deadline)
    && end <= Most(start, deadline + Most(poll, MAX_BACKOFF) + slack)
    && (r == Outcome.TimedOut ==> end > deadline)
    && (r == Outcome.TimedOut && start <= deadline ==>
          trace != [] && end <= Last(trace).at + Most(poll, MAX_BACKOFF) + slack)
  }

  lemma ReportAfterWait(trace: seq<Query>, now: int, start: int, deadline: int, expected: int, poll: nat, slack: nat)
    requires Waited(trace, now, start, deadline, expected, poll, slack)
    ensures Report(Cancelled, now, trace, start, deadline, expected, poll, slack)
    ensures now > deadline ==> Report(Outcome.TimedOut, now, trace, start, deadline, expected, poll, slack)
  {}

  /** A reply that ends the gate, after `errors` transient errors in a row. */
  predicate Stops(reply: Reply, errors: nat, expected: int, r: Outcome) {
    match r
    case Passed => reply == Value(expected)
    case Fatal => reply.Failed? && !IsTransient(reply)
    case TooManyTransients => IsTransient(reply) && errors + 1 == MAX_TRANSIENT
    case _ => false
  }

  lemma ReportOnStop(trace: seq<Query>, q: Query, r: Outcome, start: int, deadline: int, expected: int, poll: nat,
                     slack: nat, took: nat)
    requires Waited(trace, q.at, start, deadline, expected, poll, slack) && q.at <= deadline && took <= slack
    requires r in {Passed, Fatal, TooManyTransients} && Stops(q.reply, Streak(trace, |trace|), expected, r)
    ensures Report(r, q.at + took, trace + [q], start, deadline, expected, poll, slack)
  {
    SendsOnTime(trace, q, start, deadline, expected, poll, slack);
  }

  /** At most floor(timeout / Least(poll, 60 s)) + 1 queries; none if the deadline is already past. */
  lemma GateSendsFewQueries(r: Outcome, end: int, trace: seq<Query>, start: int, deadline: int, expected: int,
                            poll: nat, slack: nat)
    requires poll > 0 && Report(r, end, trace, start, deadline, expected, poll, slack)
    ensures if deadline < start then trace == [] else |trace| <= (deadline - start) / Least(poll, 60_000) + 1
  {
    if trace != [] {
      QueriesTakeTime(trace, start, deadline, expected, poll);
      assert (|trace| - 1) * Least(poll, MAX_BACKOFF) >= 0;
      QuotientBound(|trace| - 1, Least(poll, MAX_BACKOFF), deadline - start);
    } else if start <= deadline {
      QuotientBound(0, Least(poll, MAX_BACKOFF), deadline - start);
    }
  }

  /** A gate does not time out when the count is as expected at every read of some last stretch before the deadline,
      as long as one longest sleep and one slack. */
  lemma DrainedInTimeIsNotTimedOut(r: Outcome, end: int, trace: seq<Query>, start: int, deadline: int,
                                   expected: int, poll: nat, slack: nat, drained: int)
    requires Report(r, end, trace, start, deadline, expected, poll, slack) && start <= deadline
    requires drained + Most(poll, 60_000) + slack <= deadline
    requires forall i :: 0 <= i < |trace| && trace[i].at > drained ==> trace[i].reply == Value(expected)
    ensures r != Outcome.TimedOut
  {
    assert r == Outcome.TimedOut ==> GoesOn(trace, |trace| - 1, expected, poll);
  }

  // ----- In numbers

  /** The error leaves the loop running. */
  ghost predicate Retried(reply: Reply) {
    reply.Failed? && reply.code in {Some(1040), Some(1205), Some(2003), Some(2006)}
  }

  /** Of a query after which the loop went to sleep. */
  ghost predicate PauseIs(trace: seq<Query>, i: nat, poll: nat)
    requires i < |trace|
  {
    var before := if i > 0 && trace[i - 1].reply.Failed? then trace[i - 1].pause else poll;
    if trace[i].reply.Value? then trace[i].pause == poll
    else Retried(trace[i].reply) && trace[i].pause == Least(2 * before, 60_000)
  }

  /** A gate of the migration file, `minutes` and `pollMs` as written there: two hours and five seconds if they are 0.
      Each error in a row doubles the sleep, up to a minute; the fifth is the last. */
  ghost predicate InNumbers(r: Outcome, end: int, trace: seq<Query>, start: int, minutes: int, pollMs: nat,
                            slack: nat) {
    var limit := start + if minutes == 0 then 7_200_000 else 60_000 * minutes;
    var poll := if pollMs == 0 then 5_000 else pollMs;
    var last := |trace| - 1;
    && (r == Outcome.TimedOut ==> end > limit)
    && end <= Most(start, limit + Most(poll, 60_000) + slack)
    && (forall i :: 0 <= i < |trace| ==> trace[i].at <= limit)
    && (forall i :: 0 <= i < |trace| && (i < last || r == Outcome.TimedOut || r == Cancelled) ==>
          PauseIs(trace, i, poll))
    && (r == Fatal <==> trace != [] && trace[last].reply.Failed? && !Retried(trace[last].reply))
    && (r == TooManyTransients
        <==> |trace| >= 5 && forall i :: last - 5 < i <= last ==> Retried(trace[i].reply))
  }

  lemma {:induction false} StreakIsRetried(trace: seq<Query>, n: nat)
    requires n <= |trace|
    ensures Streak(trace, n) <= n
    ensures forall i :: n - Streak(trace, n) <= i < n ==> Retried(trace[i].reply)
  {
    if Streak(trace, n) > 0 {
      StreakIsRetried(trace, n - 1);
    }
  }

  lemma GoesOnInNumbers(trace: seq<Query>, i: nat, expected: int, pollMs: nat)
    requires i < |trace| && GoesOn(trace, i, expected, Interval(pollMs))
    requires i > 0 ==> GoesOn(trace, i - 1, expected, Interval(pollMs))
    ensures PauseIs(trace, i, if pollMs == 0 then 5_000 else pollMs)
  {
    if trace[i].reply.Failed? {
      BackoffDoubles(Interval(pollMs), Streak(trace, i));
    }
  }

  lemma FiveRetried(trace: seq<Query>, r: Outcome, expected: int, poll: nat)
    requires Decided(r, trace, expected, poll)
    ensures r == TooManyTransients
       <==> |trace| >= 5 && forall i :: |trace| - 5 <= i < |trace| ==> Retried(trace[i].reply)
  {
    if r == TooManyTransients {
      StreakIsRetried(trace, |trace|);
    }
    if |trace| >= 5 && forall i :: |trace| - 5 <= i < |trace| ==> Retried(trace[i].reply) {
      NeverSleepsAfterFive(trace, r, expected, poll, |trace| - 5);
    }
  }

  lemma ReportInNumbers(r: Outcome, end: int, trace: seq<Query>, start: int, minutes: int, expected: int, pollMs: nat,
                        slack: nat)
    requires Report(r, end, trace, start, start + Timeout(minutes), expected, Interval(pollMs), slack)
    ensures InNumbers(r, end, trace, start, minutes, pollMs, slack)
  {
    var poll := if pollMs == 0 then 5_000 else pollMs;
    FiveRetried(trace, r, expected, poll);
    forall i | 0 <= i < |trace| && (i < |trace| - 1 || r == Outcome.TimedOut || r == Cancelled)
      ensures PauseIs(trace, i, poll)
    {
      GoesOnInNumbers(trace, i, expected, pollMs);
    }
    if trace != [] && r == Fatal {
      assert Last(trace) == trace[|trace| - 1];
    }
    if trace != [] && trace[|trace| - 1].reply.Failed? && !Retried(trace[|trace| - 1].reply) {
      assert !GoesOn(trace, |trace| - 1, expected, Interval(pollMs));
    }
  }

  predicate WokenEarly(turn: Turn, q: Query) {
    turn.cancelledAsleep.Some? && turn.cancelledAsleep.value < q.pause
  }

  /** The query got this turn's reply and its sleep ran to the end. */
  predicate Slept(turn: Turn, q: Query, after: int) {
    && !turn.cancelled && q.reply == turn.reply && !WokenEarly(turn, q)
    && after == q.at + turn.took + q.pause + turn.late
  }

  /** The query got this turn's reply and was the last: decisive, or cancelled in the sleep after it. */
  predicate Ended(turn: Turn, q: Query, r: Outcome, end: int) {
    && !turn.cancelled && q.reply == turn.reply && r != Outcome.TimedOut
    && if r == Cancelled then WokenEarly(turn, q) && end == q.at + turn.took + turn.cancelledAsleep.value
       else end == q.at + turn.took
  }

  /** The trace is what this environment gives, turn by turn, and `now` is when the next pass begins. */
  ghost predicate Heard(trace: seq<Query>, env: nat -> Turn, start: int, now: int) {
    if trace == [] then now == start
    else
      var n := |trace| - 1;
      Slept(env(n), trace[n], now) && Heard(trace[..n], env, start, trace[n].at)
  }

  lemma {:induction false} HeardReplies(trace: seq<Query>, env: nat -> Turn, start: int, now: int)
    requires Heard(trace, env, start, now)
    ensures forall i :: 0 <= i < |trace| ==> trace[i].reply == env(i).reply
  {
    if trace != [] {
      var n := |trace| - 1;
      HeardReplies(trace[..n], env, start, trace[n].at);
      assert forall i :: 0 <= i < n ==> trace[i] == trace[..n][i];
    }
  }

  ghost predicate Witnessed(r: Outcome, end: int, trace: seq<Query>, env: nat -> Turn, start: int) {
    || (r == Outcome.TimedOut && Heard(trace, env, start, end))
    || (r == Cancelled && env(|trace|).cancelled && Heard(trace, env, start, end))
    || (&& trace != []
        && var n := |trace| - 1;
           Ended(env(n), trace[n], r, end) && Heard(trace[..n], env, start, trace[n].at))
  }

  /** One pass, begun at `at`, took the trace from `before` to `trace`. */
  ghost predicate Turned(turn: Turn, before: seq<Query>, at: int, trace: seq<Query>, stop: Option<Outcome>,
                         after: int) {
    if turn.cancelled then stop == Some(Cancelled) && trace == before && after == at
    else exists q :: trace == before + [q] && q.at == at &&
           if stop.None? then Slept(turn, q, after) else Ended(turn, q, stop.value, after)
  }

  /** Everything known while the loop runs. */
  ghost predicate Running(trace: seq<Query>, now: int, env: nat -> Turn, start: int, deadline: int, expected: int,
                          poll: nat, slack: nat) {
    Waited(trace, now, start, deadline, expected, poll, slack) && Heard(trace, env, start, now)
  }

  /** Everything promised once it has ended. */
  ghost predicate Finished(r: Outcome, end: int, trace: seq<Query>, env: nat -> Turn, start: int, deadline: int,
                           expected: int, poll: nat, slack: nat) {
    Report(r, end, trace, start, deadline, expected, poll, slack) && Witnessed(r, end, trace, env, start)
  }

  /** Every reply in the trace is the one the environment gave at that turn. */
  lemma WitnessedReplies(r: Outcome, end: int, trace: seq<Query>, env: nat -> Turn, start: int)
    requires Witnessed(r, end, trace, env, start)
    ensures forall i :: 0 <= i < |trace| ==> trace[i].reply == env(i).reply
  {
    if Heard(trace, env, start, end) {
      HeardReplies(trace, env, start, end);
    } else {
      var n := |trace| - 1;
      HeardReplies(trace[..n], env, start, trace[n].at);
      assert forall i :: 0 <= i < n ==> trace[i] == trace[..n][i];
    }
  }

  lemma WitnessedByTurn(before: seq<Query>, at: int, trace: seq<Query>, stop: Option<Outcome>, after: int,
                        env: nat -> Turn, start: int)
    requires Heard(before, env, start, at) && Turned(env(|before|), before, at, trace, stop, after)
    ensures stop.None? ==> Heard(trace, env, start, after)
    ensures stop.Some? ==> Witnessed(stop.value, after, trace, env, start)
  {
    if !env(|before|).cancelled {
      assert trace[..|before|] == before;
    }
  }

  lemma FinishedInTime(trace: seq<Query>, now: int, env: nat -> Turn, start: int, deadline: int, expected: int,
                       poll: nat, slack: nat)
    requires Running(trace, now, env, start, deadline, expected, poll, slack) && now > deadline
    ensures Finished(Outcome.TimedOut, now, trace, env, start, deadline, expected, poll, slack)
  {
    ReportAfterWait(trace, now, start, deadline, expected, poll, slack);
  }

  class GateExecutor {
    const expected: int
    const pollMs: nat
    const timeoutMinutes: int

    constructor (expected: int, pollMs: nat, timeoutMinutes: int)
      ensures this.expected == expected && this.pollMs == pollMs && this.timeoutMinutes == timeoutMinutes
    {
      this.expected, this.pollMs, this.timeoutMinutes := expected, pollMs, timeoutMinutes;
    }

    /** What the loop does with a reply: which sleep follows, or which outcome. */
    method Judge(reply: Reply, at: int, errors: nat) returns (query: Query, stop: Option<Outcome>)
      requires errors < MAX_TRANSIENT
      ensures query.at == at && query.reply == reply
      ensures stop.Some? ==> Stops(reply, errors, expected, stop.value)
      ensures stop.None? ==> Continues(query, errors, expected, Interval(pollMs))
    {
      var poll := Interval(pollMs);
      if reply.Failed? {
        if IsTransient(reply) {
          if errors + 1 >= MAX_TRANSIENT {
            return Query(at, reply, 0), Some(TooManyTransients);
          }
          return Query(at, reply, Backoff(poll, errors + 1)), None;
        }
        return Query(at, reply, 0), Some(Fatal);
      }
      if reply.v == expected {
        return Query(at, reply, 0), Some(Passed);
      }
      return Query(at, reply, poll), None;
    }

    /** One pass of the loop, once the deadline has been checked. */
    method Pass(trace: seq<Query>, now: int, errors: nat, turn: Turn, ghost start: int, ghost deadline: int,
                ghost slack: nat)
      returns (stop: Option<Outcome>, after: int, trace': seq<Query>, errors': nat)
      requires Waited(trace, now, start, deadline, expected, Interval(pollMs), slack) && now <= deadline
      requires errors == Streak(trace, |trace|) && turn.took + turn.late <= slack
      ensures stop.Some? ==> Report(stop.value, after, trace', start, deadline, expected, Interval(pollMs), slack)
      ensures stop.None? ==> Waited(trace', after, start, deadline, expected, Interval(pollMs), slack)
      ensures stop.None? ==> now < after && errors' == Streak(trace', |trace'|)
      ensures Turned(turn, trace, now, trace', stop, after)
    {
      ghost var poll := Interval(pollMs);
      if turn.cancelled {
        ReportAfterWait(trace, now, start, deadline, expected, poll, slack);
        return Some(Cancelled), now, trace, errors;
      }
      var query, end := Judge(turn.reply, now, errors);
      after, trace' := now + turn.took, trace + [query];
      if end.Some? {
        ReportOnStop(trace, query, end.value, start, deadline, expected, poll, slack, turn.took);
        return end, after, trace', errors;
      }
      GoesOnAfter(trace, query, expected, poll);
      WaitsAgain(trace, query, start, deadline, expected, poll, slack, turn.took, turn.late);
      errors' := if turn.reply.Failed? then errors + 1 else 0;
      if turn.cancelledAsleep.Some? && turn.cancelledAsleep.value < query.pause {
        ReportAfterWait(trace', after + query.pause + turn.late, start, deadline, expected, poll, slack);
        return Some(Cancelled), after + turn.cancelledAsleep.value, trace', errors';
      }
      return None, after + query.pause + turn.late, trace', errors';
    }

    /** The loop's body from the query on, in this environment. */
    method Iterate(trace: seq<Query>, now: int, errors: nat, env: nat -> Turn, ghost start: int,
                   ghost deadline: int, ghost slack: nat)
      returns (stop: Option<Outcome>, after: int, trace': seq<Query>, errors': nat)
      requires Running(trace, now, env, start, deadline, expected, Interval(pollMs), slack) && now <= deadline
      requires errors == Streak(trace, |trace|) && Prompt(env, slack) && deadline == start + Timeout(timeoutMinutes)
      ensures stop.Some? ==>
                && Finished(stop.value, after, trace', env, start, deadline, expected, Interval(pollMs), slack)
                && InNumbers(stop.value, after, trace', start, timeoutMinutes, pollMs, slack)
      ensures stop.None? ==> Running(trace', after, env, start, deadline, expected, Interval(pollMs), slack)
      ensures stop.None? ==> now < after && errors' == Streak(trace', |trace'|)
    {
      stop, after, trace', errors' := Pass(trace, now, errors, env(|trace|), start, deadline, slack);
      WitnessedByTurn(trace, now, trace', stop, after, env, start);
      if stop.Some? {
        ReportInNumbers(stop.value, after, trace', start, timeoutMinutes, expected, pollMs, slack);
      }
    }

    /** `Execute`, from time `start`, against any infinite environment: it ends by the deadline for every one of
        them. `slack` is any bound there is on a query's duration plus a timer's lateness; with instant queries and
        exact timers it is 0. */
    method Execute(start: int, env: nat -> Turn, ghost slack: nat) returns (r: Outcome, end: int, trace: seq<Query>)
      requires Prompt(env, slack)
      ensures Finished(r, end, trace, env, start, start + Timeout(timeoutMinutes), expected, Interval(pollMs), slack)
      ensures InNumbers(r, end, trace, start, timeoutMinutes, pollMs, slack)
    {
      var deadline := start + Timeout(timeoutMinutes);
      var consecutiveErrors, now := 0, start;
      trace := [];
      while now <= deadline
        invariant Running(trace, now, env, start, deadline, expected, Interval(pollMs), slack)
        invariant consecutiveErrors == Streak(trace, |trace|)
        decreases deadline - now
      {
        var stop;
        stop, now, trace, consecutiveErrors :=
          Iterate(trace, now, consecutiveErrors, env, start, deadline, slack);
        if stop.Some? {
          return stop.value, now, trace;
        }
      }
      FinishedInTime(trace, now, env, start, deadline, expected, Interval(pollMs), slack);
      ReportInNumbers(Outcome.TimedOut, now, trace, start, timeoutMinutes, expected, pollMs, slack);
      return Outcome.TimedOut, now, trace;
    }
  }
}
