/** The table a backfill works on, and what its batch, cursor and done_when queries mean: fill the first n NULL
    rows past the cursor; move the cursor to the n-th row of any kind past it; count the NULL rows. */
module Table {
  import opened Store

  /** The rest of the row, and the column to fill. */
  datatype Row = Row(data: int, val: Option<int>)

  type Rows = map<int, Row>

  function Nulls(t: Rows): set<int> {
    set k | k in t && t[k].val.None?
  }

  function IdsAfter(t: Rows, last: int): set<int> {
    set k | k in t && k > last
  }

  function NullsAfter(t: Rows, last: int): set<int> {
    set k | k in t && k > last && t[k].val.None?
  }

  /** How many elements come before k. */
  function Rank(s: set<int>, k: int): nat {
    |set j | j in s && j < k|
  }

  /** ORDER BY id LIMIT n. */
  function FirstN(s: set<int>, n: nat): set<int> {
    set k | k in s && Rank(s, k) < n
  }

  function Fill(t: Rows, ids: set<int>, fill: int -> int): Rows {
    map k | k in t :: if k in ids && t[k].val.None? then t[k].(val := Some(fill(t[k].data))) else t[k]
  }

  function BatchIds(t: Rows, last: int, n: nat): set<int> {
    FirstN(NullsAfter(t, last), n)
  }

  /** UPDATE ... WHERE id > last AND val IS NULL ORDER BY id LIMIT n */
  function Batch(t: Rows, last: int, n: nat, fill: int -> int): Rows {
    Fill(t, BatchIds(t, last, n), fill)
  }

  /** One UPDATE of every NULL row. */
  function UpdateAll(t: Rows, fill: int -> int): Rows {
    Fill(t, Nulls(t), fill)
  }

  /** In full: every NULL row gets the value computed from it, and nothing else changes. */
  lemma UpdateAllIs(t: Rows, fill: int -> int)
    ensures UpdateAll(t, fill).Keys == t.Keys
    ensures forall k :: k in t ==>
              UpdateAll(t, fill)[k] == if t[k].val.None? then Row(t[k].data, Some(fill(t[k].data))) else t[k]
  {
    assert forall k :: k in t && t[k].val.None? ==> k in Nulls(t);
  }

  lemma NonEmpty(s: set<int>)
    ensures s == {} || exists x :: x in s
  {
    assert (forall x :: x !in s) ==> s == {};
  }

  lemma MaxExists(s: set<int>) returns (m: int)
    requires s != {}
    ensures m in s && forall j :: j in s ==> j <= m
    decreases |s|
  {
    NonEmpty(s);
    var x :| x in s;
    var rest := s - {x};
    assert s == rest + {x};
    if rest == {} {
      m := x;
    } else {
      var r := MaxExists(rest);
      m := if r > x then r else x;
    }
  }

  function Max(s: set<int>): (m: int)
    requires s != {}
    ensures m in s && forall j :: j in s ==> j <= m
  {
    assert exists m :: m in s && forall j :: j in s ==> j <= m by {
      var m := MaxExists(s);
    }
    var m :| m in s && forall j :: j in s ==> j <= m;
    m
  }

  /** SELECT COALESCE(MAX(id), last) FROM (SELECT id ... WHERE id > last ORDER BY id LIMIT n) */
  function Cursor(t: Rows, last: int, n: nat): int {
    var ids := FirstN(IdsAfter(t, last), n);
    if ids == {} then last else Max(ids)
  }

  /** No NULL row is left at or before the cursor. */
  ghost predicate FilledUpTo(t: Rows, last: int) {
    forall k :: k in t && k <= last ==> t[k].val.Some?
  }

  // ----- Ranks

  lemma SubsetSize<T>(s: set<T>, u: set<T>)
    requires s <= u
    ensures |s| <= |u|
  {
    assert u == s + (u - s);
  }

  lemma RankMonotone(s: set<int>, u: set<int>, j: int, k: int)
    requires s <= u && j <= k
    ensures Rank(s, j) <= Rank(u, k)
  {
    SubsetSize(set i | i in s && i < j, set i | i in u && i < k);
  }

  /** Taking away the largest element changes no other rank. */
  lemma FirstNWithoutMax(s: set<int>, n: nat)
    requires s != {}
    ensures FirstN(s, n) == FirstN(s - {Max(s)}, n) + (if |s| - 1 < n then {Max(s)} else {})
  {
    var m := Max(s);
    var rest := s - {m};
    assert (set j | j in s && j < m) == rest;
    forall k | k in rest
      ensures Rank(s, k) == Rank(rest, k)
    {
      assert (set j | j in s && j < k) == (set j | j in rest && j < k);
    }
  }

  lemma {:induction false} FirstNSize(s: set<int>, n: nat)
    ensures |FirstN(s, n)| == if n < |s| then n else |s|
    decreases |s|
  {
    if s == {} {
      assert FirstN(s, n) == {};
    } else {
      FirstNWithoutMax(s, n);
      FirstNSize(s - {Max(s)}, n);
    }
  }

  lemma FirstNAll(s: set<int>, n: nat)
    requires |s| <= n
    ensures FirstN(s, n) == s
  {
    FirstNSize(s, n);
    if s != FirstN(s, n) {
      var k :| k in s && k !in FirstN(s, n);
      SubsetSize(FirstN(s, n), s - {k});
    }
  }

  // ----- The cursor

  /** The ids in (a, b], whatever their rows hold. */
  function Between(ids: set<int>, a: int, b: int): set<int> {
    set k | k in ids && a < k <= b
  }

  function Past(ids: set<int>, a: int): set<int> {
    set k | k in ids && k > a
  }

  lemma BetweenSplit(ids: set<int>, a: int, b: int, c: int)
    requires a <= b <= c
    ensures |Between(ids, a, c)| == |Between(ids, a, b)| + |Between(ids, b, c)|
    ensures |Past(ids, a)| == |Between(ids, a, b)| + |Past(ids, b)|
  {
    assert Between(ids, a, c) == Between(ids, a, b) + Between(ids, b, c);
    assert Past(ids, a) == Between(ids, a, b) + Past(ids, b);
  }

  /** An id lies at or before another place exactly when no more ids lead up to it. */
  lemma BeforeIffFewer(ids: set<int>, a: int, k: int, last: int)
    requires k in ids && k > a && a <= last && (last == a || last in ids)
    ensures k <= last <==> |Between(ids, a, k)| <= |Between(ids, a, last)|
  {
    if k <= last {
      SubsetSize(Between(ids, a, k), Between(ids, a, last));
    } else {
      assert k !in Between(ids, a, last) && k in Between(ids, a, k);
      SubsetSize(Between(ids, a, last) + {k}, Between(ids, a, k));
    }
  }

  /** A batch and the cursor move after it leave no NULL row behind the new cursor, even when other clients fill
      rows in between: the n-th row of any kind is never past the n-th NULL row. */
  lemma CursorNeverSkips(t: Rows, t': Rows, last: int, n: nat, fill: int -> int)
    requires FilledUpTo(t, last)
    requires t'.Keys == t.Keys
    requires forall k :: k in t && Batch(t, last, n, fill)[k].val.Some? ==> t'[k].val.Some?
    ensures FilledUpTo(t', Cursor(t', last, n))
  {
    var c := Cursor(t', last, n);
    assert IdsAfter(t', last) == IdsAfter(t, last);
    forall k | k in t' && k <= c
      ensures t'[k].val.Some?
    {
      if k > last && t[k].val.None? {
        assert c in FirstN(IdsAfter(t, last), n);
        RankMonotone(NullsAfter(t, last), IdsAfter(t, last), k, c);
        assert k in BatchIds(t, last, n);
      }
    }
  }

  /** The next n ids of any kind, or all that are left, lie between one position of the cursor and the next, and the
      next is the last of them. */
  ghost predicate MovedPast(ids: set<int>, last: int, n: nat, next: int) {
    && |Between(ids, last, next)| == (if n < |Past(ids, last)| then n else |Past(ids, last)|)
    && (if Past(ids, last) == {} then next == last else next > last && next in ids)
  }

  /** Whenever rows are left past it the cursor moves forward, over n ids. */
  lemma CursorAdvances(t: Rows, last: int, n: nat)
    requires n > 0
    ensures MovedPast(t.Keys, last, n, Cursor(t, last, n))
  {
    var ids := IdsAfter(t, last);
    var first := FirstN(ids, n);
    FirstNSize(ids, n);
    assert Past(t.Keys, last) == ids;
    if ids == {} {
      assert first == {};
      assert Between(t.Keys, last, last) == {};
    } else {
      var c := Max(first);
      forall k | k in ids && k <= c
        ensures k in first
      {
        RankMonotone(ids, ids, k, c);
      }
      assert Between(t.Keys, last, c) == first;
    }
  }

  /** The hypothesis on other clients is needed. A NULL row inserted between the batch and the cursor query is
      passed over, and no later batch of that run can reach it. */
  lemma InsertBeforeCursorIsSkipped(fill: int -> int) returns (t: Rows, t': Rows)
    ensures FilledUpTo(t, 0) && Nulls(t) == {1} && t' == Batch(t, 0, 2, fill)[2 := Row(0, None)]
    ensures !FilledUpTo(t', Cursor(t', 0, 2))
    ensures Batch(t', Cursor(t', 0, 2), 2, fill) == t' && Nulls(t') != {}
  {
    t := map[1 := Row(0, None)];
    assert NullsAfter(t, 0) == {1};
    FirstNAll({1}, 2);
    t' := Batch(t, 0, 2, fill)[2 := Row(0, None)];
    assert IdsAfter(t', 0) == {1, 2};
    FirstNAll({1, 2}, 2);
    assert Cursor(t', 0, 2) == 2;
    assert 2 in t' && 2 in Nulls(t');
    assert NullsAfter(t', 2) == {};
    assert FirstN({}, 2) == {};
  }

  lemma MaxOfMore(s: set<int>, x: int)
    requires forall k :: k in s ==> k < x
    ensures Max(s + {x}) == x && s + {x} - {x} == s && |s + {x}| == |s| + 1
  {
    assert x !in s;
    assert x in s + {x};
  }

  lemma CursorAfterInsert(t: Rows, last: int, n: nat, x: int, row: Row)
    requires last < x && forall k :: k in t ==> k < x
    ensures Cursor(t[x := row], last, n) == if |IdsAfter(t, last)| < n then x else Cursor(t, last, n)
  {
    var s := IdsAfter(t, last);
    assert IdsAfter(t[x := row], last) == s + {x};
    MaxOfMore(s, x);
    FirstNWithoutMax(s + {x}, n);
    assert FirstN(s + {x}, n) == FirstN(s, n) + if |s| < n then {x} else {};
  }

  lemma CursorBeforeEnd(t: Rows, last: int, n: nat, x: int)
    requires last < x && forall k :: k in t ==> k < x
    ensures Cursor(t, last, n) < x
  {
  }

  /** The cursor after an iteration: its query is sent only if the batch wrote rows. */
  function NextCursor(t: Rows, last: int, n: nat, written: set<int>): int {
    if written == {} then last else Cursor(t, last, n)
  }

  /** Exactly when: a NULL row inserted there, with the next id, is passed over if and only if the batch wrote rows and
      fewer than n rows of any kind were left past the cursor, that is, when it reached the end of the table. */
  lemma InsertIsSkippedIffAtEnd(t: Rows, last: int, n: nat, x: int, data: int, fill: int -> int)
    requires FilledUpTo(t, last) && last < x && forall k :: k in t ==> k < x
    ensures var written, t' := BatchIds(t, last, n), Batch(t, last, n, fill)[x := Row(data, None)];
            !FilledUpTo(t', NextCursor(t', last, n, written)) <==> written != {} && |IdsAfter(t, last)| < n
  {
    var b := Batch(t, last, n, fill);
    var t' := b[x := Row(data, None)];
    assert IdsAfter(b, last) == IdsAfter(t, last);
    CursorAfterInsert(b, last, n, x, Row(data, None));
    if BatchIds(t, last, n) == {} {
      assert FilledUpTo(t', last);
    } else if |IdsAfter(t, last)| < n {
      assert x in t' && Cursor(t', last, n) == x;
    } else {
      CursorNeverSkips(t, b, last, n, fill);
      CursorBeforeEnd(b, last, n, x);
    }
  }

  // ----- A row left behind

  /** A NULL row at or before the cursor. */
  ghost predicate LeftBehind(t: Rows, last: int) {
    exists k :: k in t && k <= last && t[k].val.None?
  }

  /** What any iteration without outside writes does: the batch writes only past the cursor, and the cursor never goes
      back. */
  ghost predicate Iterates(t: Rows, last: int, t': Rows, last': int) {
    last <= last' && t'.Keys == t.Keys && forall k :: k in t && k <= last ==> t'[k] == t[k]
  }

  /** The tables and cursors of any number of iterations. */
  ghost predicate IteratesAll(ts: seq<Rows>, cs: seq<int>) {
    |ts| == |cs| && forall i, j :: 0 <= i && j == i + 1 < |ts| ==> Iterates(ts[i], cs[i], ts[j], cs[j])
  }

  lemma IterationLeavesBehind(t: Rows, last: int, t': Rows, last': int)
    requires LeftBehind(t, last) && Iterates(t, last, t', last')
    ensures LeftBehind(t', last')
  {
    var k :| k in t && k <= last && t[k].val.None?;
    assert k in t' && t'[k].val.None?;
  }

  /** It stays behind: without outside writes no number of iterations fills it, so a done_when that counts NULL rows
      never reads 0. */
  lemma {:induction false} LeftBehindForEver(ts: seq<Rows>, cs: seq<int>)
    requires ts != [] && IteratesAll(ts, cs) && LeftBehind(ts[0], cs[0])
    ensures LeftBehind(Last(ts), Last(cs)) && |Nulls(Last(ts))| > 0
  {
    var m := |ts| - 1;
    if m > 0 {
      LeftBehindForEver(ts[..m], cs[..m]);
      IterationLeavesBehind(ts[m - 1], cs[m - 1], ts[m], cs[m]);
    }
    var k :| k in ts[m] && k <= cs[m] && ts[m][k].val.None?;
    assert k in Nulls(ts[m]);
  }

  // ----- One batch

  lemma BatchFillsExactly(t: Rows, last: int, n: nat, fill: int -> int)
    requires FilledUpTo(t, last)
    ensures NullsAfter(t, last) == Nulls(t)
    ensures Nulls(Batch(t, last, n, fill)) == Nulls(t) - BatchIds(t, last, n)
    ensures BatchIds(t, last, n) <= Nulls(t)
    ensures |BatchIds(t, last, n)| == if n < |Nulls(t)| then n else |Nulls(t)|
    ensures |Nulls(Batch(t, last, n, fill))| == |Nulls(t)| - |BatchIds(t, last, n)|
  {
    assert NullsAfter(t, last) == Nulls(t);
    FirstNSize(Nulls(t), n);
    assert Nulls(Batch(t, last, n, fill)) == Nulls(t) - BatchIds(t, last, n);
  }

  /** A table between `t0` and UpdateAll(t0): some NULL rows filled, nothing else changed. */
  ghost predicate PartlyFilled(t0: Rows, t: Rows, fill: int -> int) {
    t.Keys == t0.Keys && forall k :: k in t0 ==> t[k] == t0[k] || t[k] == UpdateAll(t0, fill)[k]
  }

  /** The rows that have been written since t0. */
  ghost function Written(t0: Rows, t: Rows): set<int>
    requires t.Keys == t0.Keys
  {
    set k | k in t0 && t0[k].val.None? && t[k].val.Some?
  }

  /** Once no NULL row is left the table is the one UPDATE, and what was written is what was NULL. */
  lemma FilledIsUpdateAll(t0: Rows, t: Rows, fill: int -> int)
    requires PartlyFilled(t0, t, fill) && Nulls(t) == {}
    ensures t == UpdateAll(t0, fill) && Written(t0, t) == Nulls(t0)
  {
    forall k | k in t
      ensures t[k].val.Some? && t[k] == UpdateAll(t0, fill)[k]
    {
      assert k !in Nulls(t);
    }
  }
}
