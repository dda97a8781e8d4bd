/**
  Formatting writes every token once, in order, with whitespace between.
 */
module SqlFormatLaws {
  import opened SqlTokens
  import opened SqlFormat

  // ----- every token once -----

  function Cut(n: nat, i: nat): nat {
    if i < n then i else n
  }

  predicate Blank(g: string) {
    g != [] && forall i | 0 <= i < |g| :: g[i] == ' ' || g[i] == '\n'
  }

  /** One piece more. */
  lemma {:induction false} WrittenSnoc(ps: seq<Piece>, p: Piece)
    ensures Written(ps + [p]) == Written(ps) + (if p.Tok? then [p.t] else [])
  {
    WrittenConcat(ps, [p]);
    assert [p][1..] == [];
  }

  lemma {:induction false} WriteWrites(u: Runes, st: State, t: Token, keyword: bool)
    ensures Written(Write(u, st, t, keyword).out) == Written(st.out) + [t]
  {
    hide Spaced, IsKeyword, IsUpperKeyword;
    WrittenSnoc(st.out, Gap(" "));
    WrittenSnoc(st.out + [Gap(" ")], Tok(t));
    WrittenSnoc(st.out, Tok(t));
    assert st.out + [] == st.out;
  }

  lemma {:induction false} NewlineWrites(st: State, indent: nat)
    ensures Written(Newline(st, indent).out) == Written(st.out)
  {
    WrittenSnoc(st.out, Gap("\n" + Indent(indent)));
  }

  lemma {:induction false} WriteAllWrites(u: Runes, st: State, ts: seq<Token>)
    ensures Written(WriteAll(u, st, ts).out) == Written(st.out) + ts
    decreases |ts|
  {
    hide Write;
    if ts != [] {
      WriteWrites(u, st, ts[0], true);
      WriteAllWrites(u, Write(u, st, ts[0], true), ts[1..]);
      assert ts == [ts[0]] + ts[1..];
    }
  }

  lemma {:induction false} ClauseWrites(u: Runes, st: State, ts: seq<Token>, kw: seq<string>, indent: nat)
    requires kw != []
    ensures Written(WriteClause(u, st, ts, kw, indent).out) == Written(st.out) + ts
  {
    hide Write, Newline, WriteAll;
    NewlineWrites(st, indent);
    NewlineWrites(st, indent + 1);
    WriteAllWrites(u, BeforeClause(st, kw, indent), ts);
    NewlineWrites(WriteAll(u, BeforeClause(st, kw, indent), ts), indent + 1);
  }

  lemma {:induction false} PlainWrites(u: Runes, st: State, t: Token, indent: nat, inline: bool, clause: string,
                                       between: bool)
    ensures Written(WritePlain(u, st, t, indent, inline, clause, between).out) == Written(st.out) + [t]
  {
    hide Write, Newline, BreaksLine, IsKeyword;
    NewlineWrites(st, indent + 1);
    var st' := if !inline && BreaksLine(u, t, clause, between) then Newline(st, indent + 1) else st;
    WriteWrites(u, st', t, t.kind == Kind.Word && IsKeyword(u.upper(t.s)));
  }

  /** From st to st', the tokens from i to k were written. */
  predicate Wrote(ts: seq<Token>, st: State, i: nat, st': State, k: nat) {
    Cut(|ts|, i) <= Cut(|ts|, k) && Written(st'.out) == Written(st.out) + ts[Cut(|ts|, i)..Cut(|ts|, k)]
  }

  lemma {:induction false} WroteThen(ts: seq<Token>, st: State, i: nat, st1: State, k: nat, st2: State, j: nat)
    requires Wrote(ts, st, i, st1, k) && Wrote(ts, st1, k, st2, j)
    ensures Wrote(ts, st, i, st2, j)
  {
    hide Written;
    var n := |ts|;
    assert ts[Cut(n, i)..Cut(n, k)] + ts[Cut(n, k)..Cut(n, j)] == ts[Cut(n, i)..Cut(n, j)];
  }

  lemma {:induction false} OneWritten(u: Runes, ts: seq<Token>, st: State, i: nat, keyword: bool)
    requires i < |ts|
    ensures Wrote(ts, st, i, Write(u, st, ts[i], keyword), i + 1)
  {
    hide Written, Write;
    WriteWrites(u, st, ts[i], keyword);
    assert [ts[i]] == ts[i..i + 1];
  }

  lemma {:induction false} NewlineAfter(ts: seq<Token>, st: State, i: nat, st': State, k: nat, indent: nat)
    requires Wrote(ts, st, i, st', k)
    ensures Wrote(ts, st, i, Newline(st', indent), k)
  {
    hide Written, Newline;
    NewlineWrites(st', indent);
  }

  lemma {:induction false} NewlineBefore(ts: seq<Token>, st: State, indent: nat, i: nat, st': State, k: nat)
    requires Wrote(ts, Newline(st, indent), i, st', k)
    ensures Wrote(ts, st, i, st', k)
  {
    hide Written, Newline;
    NewlineWrites(st, indent);
  }

  lemma {:induction false} StepClause(u: Runes, ts: seq<Token>, st: State, i: nat, kw: seq<string>, indent: nat)
    requires kw != [] && i + |kw| <= |ts|
    ensures Wrote(ts, st, i, WriteClause(u, st, ts[i..i + |kw|], kw, indent), i + |kw|)
  {
    hide Written, WriteClause;
    ClauseWrites(u, st, ts[i..i + |kw|], kw, indent);
  }

  lemma {:induction false} StepPlain(u: Runes, ts: seq<Token>, st: State, i: nat, indent: nat, inline: bool,
                                     clause: string, between: bool)
    requires i < |ts|
    ensures Wrote(ts, st, i, WritePlain(u, st, ts[i], indent, inline, clause, between), i + 1)
  {
    hide Written, WritePlain;
    PlainWrites(u, st, ts[i], indent, inline, clause, between);
    assert [ts[i]] == ts[i..i + 1];
  }

  lemma {:induction false} AdvanceWrites(u: Runes, ts: seq<Token>, c: Cursor, indent: nat, inline: bool)
    requires !AtEnd(ts, c.i)
    ensures var r := Advance(u, ts, c, indent, inline);
            Wrote(ts, c.st, c.i, r.st, r.i)
    decreases |ts| - c.i, 1
  {
    hide Level, Parenthesis, Write, Newline, AdvanceWord, Wrote;
    if ts[c.i].kind == Open {
      ParenthesisWrites(u, ts, c.st, c.i, indent);
      var (inner, j) := Parenthesis(u, ts, c.st, c.i, indent);
      if j < |ts| {
        OneWritten(u, ts, inner, j, false);
        WroteThen(ts, c.st, c.i, inner, j, Write(u, inner, ts[j], false), j + 1);
      } else {
        PastTheEnd(ts, inner, j);
        WroteThen(ts, c.st, c.i, inner, j, inner, j + 1);
      }
    } else if ts[c.i].kind == Comma {
      OneWritten(u, ts, c.st, c.i, false);
      NewlineAfter(ts, c.st, c.i, Write(u, c.st, ts[c.i], false), c.i + 1, indent + 1);
    } else {
      WordWrites(u, ts, c, indent, inline);
    }
  }

  lemma {:induction false} WordWrites(u: Runes, ts: seq<Token>, c: Cursor, indent: nat, inline: bool)
    requires c.i < |ts|
    ensures var r := AdvanceWord(u, ts, c, indent, inline);
            Wrote(ts, c.st, c.i, r.st, r.i)
  {
    hide WriteClause, WritePlain, ClauseAt, StillBetween, Wrote;
    var kw := ClauseAt(u, ts, c.i);
    if !inline && kw != [] {
      StepClause(u, ts, c.st, c.i, kw, indent);
    } else {
      StepPlain(u, ts, c.st, c.i, indent, inline, c.clause, c.between);
    }
  }

  /** A level writes exactly the tokens it passes over. */
  lemma {:induction false} LevelWrites(u: Runes, ts: seq<Token>, c: Cursor, indent: nat, inline: bool)
    ensures var r := Level(u, ts, c, indent, inline);
            Wrote(ts, c.st, c.i, r.st, r.i)
    decreases |ts| - c.i, 2
  {
    hide Advance, Wrote;
    if AtEnd(ts, c.i) {
      NothingWritten(ts, c.st, c.i);
    } else {
      var next := Advance(u, ts, c, indent, inline);
      AdvanceWrites(u, ts, c, indent, inline);
      LevelWrites(u, ts, next, indent, inline);
      var r := Level(u, ts, next, indent, inline);
      WroteThen(ts, c.st, c.i, next.st, next.i, r.st, r.i);
    }
  }

  lemma {:induction false} NothingWritten(ts: seq<Token>, st: State, i: nat)
    ensures Wrote(ts, st, i, st, i)
  {
    hide Written;
  }

  lemma {:induction false} PastTheEnd(ts: seq<Token>, st: State, j: nat)
    requires j >= |ts|
    ensures Wrote(ts, st, j, st, j + 1)
  {
    hide Written;
  }

  lemma {:induction false} ParenthesisWrites(u: Runes, ts: seq<Token>, st: State, i: nat, indent: nat)
    requires i < |ts|
    ensures var r := Parenthesis(u, ts, st, i, indent);
            Wrote(ts, st, i, r.0, r.1)
    decreases |ts| - i, 0
  {
    hide Level, Write, Newline, StartsSubquery, Wrote;
    var w := Write(u, st, ts[i], false);
    OneWritten(u, ts, st, i, false);
    var n := st.lineIndent + 1;
    if StartsSubquery(u, ts, i + 1) {
      var c := Cursor(Newline(w, n), i + 1, "", false);
      var r := Level(u, ts, c, n, false);
      LevelWrites(u, ts, c, n, false);
      NewlineBefore(ts, w, n, i + 1, r.st, r.i);
      NewlineAfter(ts, w, i + 1, r.st, r.i, st.lineIndent);
      WroteThen(ts, st, i, w, i + 1, Newline(r.st, st.lineIndent), r.i);
    } else {
      var c := Cursor(w, i + 1, "", false);
      var r := Level(u, ts, c, indent, true);
      LevelWrites(u, ts, c, indent, true);
      WroteThen(ts, st, i, w, i + 1, r.st, r.i);
    }
  }

  lemma {:induction false} AllWrites(u: Runes, ts: seq<Token>, st: State, i: nat)
    ensures Wrote(ts, st, i, All(u, ts, st, i), |ts|)
    decreases |ts| - i
  {
    hide Level, Write, Wrote;
    var c := Cursor(st, i, "", false);
    LevelWrites(u, ts, c, 0, false);
    var r := Level(u, ts, c, 0, false);
    if r.i < |ts| {
      OneWritten(u, ts, r.st, r.i, false);
      var next := Write(u, r.st, ts[r.i], false);
      WroteThen(ts, st, i, r.st, r.i, next, r.i + 1);
      AllWrites(u, ts, next, r.i + 1);
      WroteThen(ts, st, i, next, r.i + 1, All(u, ts, next, r.i + 1), |ts|);
    } else {
      WroteToTheEnd(ts, st, i, r.st, r.i);
    }
  }

  lemma {:induction false} WroteToTheEnd(ts: seq<Token>, st: State, i: nat, st': State, k: nat)
    requires Wrote(ts, st, i, st', k) && k >= |ts|
    ensures Wrote(ts, st, i, st', |ts|)
  {
    hide Written;
  }

  /** What is written for a list of tokens: each of them once, in order and unchanged. */
  lemma {:induction false} EveryTokenOnce(u: Runes, ts: seq<Token>)
    ensures Written(All(u, ts, START, 0).out) == ts
  {
    hide All;
    AllWrites(u, ts, START, 0);
    assert ts[0..|ts|] == ts;
  }
}
