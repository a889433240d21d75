/** Splitting a migration's SQL into statements: strings.Split on ';', strings.TrimSpace, and dropping the blanks. */
module SqlText {
  import opened Store

  function Split(sql: string): (pieces: seq<string>)
    ensures pieces != []
  {
    if sql == "" then [""]
    else
      var rest := Split(sql[1..]);
      if sql[0] == ';' then [""] + rest else [[sql[0]] + rest[0]] + rest[1..]
  }

  function Join(pieces: seq<string>): string
    requires pieces != []
  {
    if |pieces| == 1 then pieces[0] else pieces[0] + ";" + Join(pieces[1..])
  }

  /** unicode.IsSpace. */
  predicate IsSpace(c: char) {
    c in {'\t', '\n', '\U{000B}', '\U{000C}', '\r', ' ', '\U{0085}', '\U{00A0}', '\U{1680}', '\U{2028}', '\U{2029}',
          '\U{202F}', '\U{205F}', '\U{3000}'}
    || '\U{2000}' <= c <= '\U{200A}'
  }

  function TrimLeft(s: string): string {
    if s != "" && IsSpace(s[0]) then TrimLeft(s[1..]) else s
  }

  function TrimRight(s: string): string {
    if s != "" && IsSpace(Last(s)) then TrimRight(s[..|s| - 1]) else s
  }

  function Trim(s: string): string {
    TrimRight(TrimLeft(s))
  }

  /** The pieces that are statements, in order. */
  function NonBlank(pieces: seq<string>): seq<string> {
    if pieces == [] then []
    else NonBlank(pieces[..|pieces| - 1]) + (if Trim(Last(pieces)) == "" then [] else [Trim(Last(pieces))])
  }

  function Statements(sql: string): seq<string> {
    NonBlank(Split(sql))
  }

  // ----- Split and Join undo each other

  lemma {:induction false} JoinSplit(sql: string)
    ensures Join(Split(sql)) == sql
  {
    if sql != "" {
      JoinSplit(sql[1..]);
      var rest := Split(sql[1..]);
      if sql[0] == ';' {
        assert ([""] + rest)[1..] == rest;
      } else {
        var first := [[sql[0]] + rest[0]];
        assert (first + rest[1..])[1..] == rest[1..];
        assert [sql[0]] + Join(rest) == sql;
      }
    }
  }

  lemma {:induction false} PiecesHaveNoSemicolon(sql: string)
    ensures forall i :: 0 <= i < |Split(sql)| ==> ';' !in Split(sql)[i]
  {
    if sql != "" {
      PiecesHaveNoSemicolon(sql[1..]);
    }
  }

  lemma {:induction false} SplitConcat(a: string, b: string)
    ensures Split(a + ";" + b) == Split(a) + Split(b)
  {
    if a == "" {
      assert a + ";" + b == ";" + b && (";" + b)[1..] == b;
    } else {
      assert (a + ";" + b)[1..] == a[1..] + ";" + b;
      SplitConcat(a[1..], b);
    }
  }

  lemma {:induction false} SplitOne(s: string)
    requires ';' !in s
    ensures Split(s) == [s]
  {
    if s != "" {
      SplitOne(s[1..]);
      assert [s[0]] + s[1..] == s;
    }
  }

  lemma {:induction false} SplitJoin(pieces: seq<string>)
    requires pieces != [] && forall i :: 0 <= i < |pieces| ==> ';' !in pieces[i]
    ensures Split(Join(pieces)) == pieces
  {
    SplitOne(pieces[0]);
    if |pieces| > 1 {
      SplitJoin(pieces[1..]);
      SplitConcat(pieces[0], Join(pieces[1..]));
    }
  }

  // ----- What trimming and dropping blanks keep

  lemma {:induction false} TrimLeftTakes(s: string) returns (n: nat)
    ensures n <= |s| && TrimLeft(s) == s[n..] && forall i :: 0 <= i < n ==> IsSpace(s[i])
    ensures TrimLeft(s) != "" ==> !IsSpace(TrimLeft(s)[0])
  {
    n := 0;
    if s != "" && IsSpace(s[0]) {
      var m := TrimLeftTakes(s[1..]);
      n := m + 1;
      assert forall i :: 1 <= i < n ==> s[i] == s[1..][i - 1];
    }
  }

  lemma {:induction false} TrimRightTakes(s: string) returns (n: nat)
    ensures n <= |s| && TrimRight(s) == s[..n] && forall i :: n <= i < |s| ==> IsSpace(s[i])
    ensures TrimRight(s) != "" ==> !IsSpace(Last(TrimRight(s)))
  {
    n := |s|;
    if s != "" && IsSpace(Last(s)) {
      n := TrimRightTakes(s[..|s| - 1]);
    }
  }

  /** Trim takes blanks from both ends and nothing else, and leaves none there. */
  lemma TrimTakesBlanks(s: string) returns (i: nat, j: nat)
    ensures i <= j <= |s| && Trim(s) == s[i..j]
    ensures forall k :: 0 <= k < i || j <= k < |s| ==> IsSpace(s[k])
    ensures Trim(s) != "" ==> !IsSpace(Trim(s)[0]) && !IsSpace(Last(Trim(s)))
  {
    i := TrimLeftTakes(s);
    var t := TrimLeft(s);
    var n := TrimRightTakes(t);
    j := i + n;
    assert forall k :: j <= k < |s| ==> s[k] == t[k - i];
  }

  /** The code points with the property White_Space in the Unicode Character Database. */
  ghost predicate WhiteSpace(code: int) {
    || 0x9 <= code <= 0xD || code == 0x20 || code == 0x85 || code == 0xA0 || code == 0x1680 || 0x2000 <= code <= 0x200A
    || 0x2028 <= code <= 0x2029 || code == 0x202F || code == 0x205F || code == 0x3000
  }

  lemma SpaceIsWhite(c: char)
    ensures IsSpace(c) <==> WhiteSpace(c as int)
  {
    assert (c as int) as char == c;
    if WhiteSpace(c as int) && !('\U{2000}' <= c <= '\U{200A}') {
      var n := c as int;
      assert n in {9, 10, 11, 12, 13, 32, 0x85, 0xA0, 0x1680, 0x2028, 0x2029, 0x202F, 0x205F, 0x3000};
    }
  }

  /** A piece is dropped exactly when it is blank. */
  lemma BlankIffAllSpace(s: string)
    ensures Trim(s) == "" <==> forall k :: 0 <= k < |s| ==> IsSpace(s[k])
    ensures Trim(s) == "" <==> forall k :: 0 <= k < |s| ==> WhiteSpace(s[k] as int)
  {
    var i, j := TrimTakesBlanks(s);
    if Trim(s) != "" {
      assert s[i] == Trim(s)[0];
    }
    forall k | 0 <= k < |s|
      ensures IsSpace(s[k]) <==> WhiteSpace(s[k] as int)
    {
      SpaceIsWhite(s[k]);
    }
  }

  lemma {:induction false} NonBlankConcat(a: seq<string>, b: seq<string>)
    ensures NonBlank(a + b) == NonBlank(a) + NonBlank(b)
  {
    if b == [] {
      assert a + b == a;
    } else {
      assert (a + b)[..|a + b| - 1] == a + b[..|b| - 1];
      NonBlankConcat(a, b[..|b| - 1]);
    }
  }

  lemma NonBlankAt(pieces: seq<string>, i: nat)
    requires i < |pieces|
    ensures var before, all := NonBlank(pieces[..i]), NonBlank(pieces);
            if Trim(pieces[i]) == "" then NonBlank(pieces[..i + 1]) == before
            else NonBlank(pieces[..i + 1]) == before + [Trim(pieces[i])]
                 && |before| < |all| && all[|before|] == Trim(pieces[i])
  {
    assert pieces[..i + 1][..i] == pieces[..i];
    assert pieces == pieces[..i + 1] + pieces[i + 1..];
    NonBlankConcat(pieces[..i + 1], pieces[i + 1..]);
  }

  /** The statements of a; b are those of a and then those of b. */
  lemma StatementsConcat(a: string, b: string)
    ensures Statements(a + ";" + b) == Statements(a) + Statements(b)
  {
    SplitConcat(a, b);
    NonBlankConcat(Split(a), Split(b));
  }

  lemma {:induction false} BlankHasNoStatement(s: string)
    requires forall k :: 0 <= k < |s| ==> IsSpace(s[k]) || s[k] == ';'
    ensures Statements(s) == []
  {
    if k :| 0 <= k < |s| && s[k] == ';' {
      assert s == s[..k] + ";" + s[k + 1..];
      BlankHasNoStatement(s[..k]);
      BlankHasNoStatement(s[k + 1..]);
      StatementsConcat(s[..k], s[k + 1..]);
    } else {
      SplitOne(s);
      BlankIffAllSpace(s);
      assert NonBlank([s][..0]) == [];
    }
  }

  /** Stray semicolons and blanks between statements never shift a checkpoint's statement index. */
  lemma StrayBlanksShiftNothing(a: string, blank: string, b: string)
    requires forall k :: 0 <= k < |blank| ==> IsSpace(blank[k]) || blank[k] == ';'
    ensures Statements(a + ";" + blank + ";" + b) == Statements(a + ";" + b)
  {
    BlankHasNoStatement(blank);
    StatementsConcat(a + ";" + blank, b);
    StatementsConcat(a, blank);
    StatementsConcat(a, b);
  }

  /** Every statement is a trimmed, non-empty piece without a semicolon. */
  lemma {:induction false} StatementsAreTrimmed(pieces: seq<string>)
    ensures forall i :: 0 <= i < |NonBlank(pieces)| ==>
              NonBlank(pieces)[i] != "" && exists j :: 0 <= j < |pieces| && NonBlank(pieces)[i] == Trim(pieces[j])
  {
    if pieces != [] {
      var front := pieces[..|pieces| - 1];
      StatementsAreTrimmed(front);
      assert pieces[|pieces| - 1] == Last(pieces);
      forall i | 0 <= i < |NonBlank(pieces)|
        ensures exists j :: 0 <= j < |pieces| && NonBlank(pieces)[i] == Trim(pieces[j])
      {
        if i < |NonBlank(front)| {
          var j :| 0 <= j < |front| && NonBlank(front)[i] == Trim(front[j]);
          assert pieces[j] == front[j];
        }
      }
    }
  }
}
