/**
  What the formatter writes, as pieces: only whitespace is added, and only certain tokens
  touch each other.
 */
module SqlFormatTokens {
  import opened SqlTokens
  import opened SqlFormat
  import opened SqlFormatLaws

  // ----- how the pieces are laid -----

  /** Tokens that may stand with nothing between them. */
  predicate Touches(p: Token, q: Token) {
    || q.kind == Close || q.kind == Comma || p.kind == Open || p.s == "::" || q.s == "::"
    || (q.kind == Open && p.kind == Kind.Word)
  }

  /** A token made of operator runes, which may run into the next one. */
  predicate Runs(t: Token) {
    t.kind == Operator && t.s != [] && IsOperator(t.s[0])
  }

  /** A cast beside another operator. */
  predicate Glued(p: Token, q: Token) {
    Runs(p) && Runs(q) && (p.s == "::" || q.s == "::")
  }

  /** The last token, and whether whitespace follows it. */
  datatype Edge = Edge(last: Option<Token>, gap: bool)

  const OPEN_EDGE := Edge(None, false)

  function Past(e: Edge, p: Piece): Edge {
    match p
    case Tok(t) => Edge(Some(t), false)
    case Gap(_) => Edge(e.last, true)
  }

  predicate Fits(e: Edge, p: Piece) {
    match p
    case Tok(t) => e.last.Some? ==> if e.gap then !Glued(e.last.value, t) else Touches(e.last.value, t)
    case Gap(g) => Blank(g)
  }

  /** Whitespace everywhere but between tokens that may touch, and never between a cast
      and another operator. */
  predicate Laid(e: Edge, ps: seq<Piece>)
    decreases |ps|
  {
    ps == [] || (Fits(e, ps[0]) && Laid(Past(e, ps[0]), ps[1..]))
  }

  function EdgeOf(e: Edge, ps: seq<Piece>): Edge
    decreases |ps|
  {
    if ps == [] then e else EdgeOf(Past(e, ps[0]), ps[1..])
  }

  lemma {:induction false} LaidSnoc(e: Edge, ps: seq<Piece>, p: Piece)
    ensures Laid(e, ps + [p]) <==> Laid(e, ps) && Fits(EdgeOf(e, ps), p)
    ensures EdgeOf(e, ps + [p]) == Past(EdgeOf(e, ps), p)
    decreases |ps|
  {
    hide Fits;
    if ps == [] {
      assert (ps + [p])[0] == p && (ps + [p])[1..] == [];
    } else {
      assert (ps + [p])[0] == ps[0] && (ps + [p])[1..] == ps[1..] + [p];
      LaidSnoc(Past(e, ps[0]), ps[1..], p);
    }
  }

  // ----- the formatter lays them so -----

  /** A token the tokenizer can make. */
  predicate Fine(t: Token) {
    t.s != [] && t.s != "\n"
  }

  predicate AllFine(ts: seq<Token>) {
    forall i | 0 <= i < |ts| :: Fine(ts[i])
  }

  /** The formatter's fields agree with what it wrote. */
  predicate Good(st: State) {
    var e := EdgeOf(OPEN_EDGE, st.out);
    && Laid(OPEN_EDGE, st.out)
    && (st.out != [] ==> Flat(st.out) != [])
    && (st.out == [] ==> e.last.None?)
    && (st.out != [] && !e.gap ==> e.last == Some(st.last) && Fine(st.last))
    && (st.out != [] && e.gap ==> st.last.s == "\n")
  }

  /** Any token may follow: there is no line break pending after an operator. */
  predicate Ready(st: State) {
    var e := EdgeOf(OPEN_EDGE, st.out);
    e.gap && e.last.Some? ==> e.last.value.kind != Operator
  }

  predicate LastNotOperator(st: State) {
    var e := EdgeOf(OPEN_EDGE, st.out);
    e.last.Some? ==> e.last.value.kind != Operator
  }

  lemma {:induction false} IndentIsBlank(n: nat)
    ensures Blank("\n" + Indent(n))
  {
    var g := "\n" + Indent(n);
    assert forall i | 0 < i < |g| :: g[i] == Indent(n)[i - 1];
  }

  lemma {:induction false} NewlineGood(st: State, indent: nat)
    requires Good(st)
    ensures Good(Newline(st, indent))
    ensures LastNotOperator(st) ==> Ready(Newline(st, indent)) && LastNotOperator(Newline(st, indent))
  {
    hide Laid, EdgeOf, Flat;
    var p := Gap("\n" + Indent(indent));
    IndentIsBlank(indent);
    LaidSnoc(OPEN_EDGE, st.out, p);
    FlatSnoc(st.out, p);
  }

  lemma {:induction false} FlatSnoc(ps: seq<Piece>, p: Piece)
    ensures Flat(ps + [p]) == Flat(ps) + (if p.Tok? then p.t.s else p.g)
  {
    FlatConcat(ps, [p]);
    assert [p][1..] == [];
  }

  lemma {:induction false} WriteGood(u: Runes, st: State, t: Token, keyword: bool)
    requires Good(st) && Fine(t) && (Ready(st) || t.kind != Operator)
    ensures Good(Write(u, st, t, keyword)) && Ready(Write(u, st, t, keyword))
    ensures EdgeOf(OPEN_EDGE, Write(u, st, t, keyword).out) == Edge(Some(t), false)
  {
    hide Laid, EdgeOf, Flat, IsKeyword, IsUpperKeyword;
    var e := EdgeOf(OPEN_EDGE, st.out);
    if Spaced(st, t) {
      var spaced := st.out + [Gap(" ")];
      LaidSnoc(OPEN_EDGE, st.out, Gap(" "));
      FlatSnoc(st.out, Gap(" "));
      LaidSnoc(OPEN_EDGE, spaced, Tok(t));
      FlatSnoc(spaced, Tok(t));
    } else {
      assert st.out + [] == st.out;
      EmptyFlat();
      LaidSnoc(OPEN_EDGE, st.out, Tok(t));
      FlatSnoc(st.out, Tok(t));
    }
  }

  lemma {:induction false} EmptyFlat()
    ensures Flat([]) == []
  {
  }

  lemma {:induction false} WriteAllGood(u: Runes, st: State, ts: seq<Token>)
    requires Good(st) && AllFine(ts) && ts != [] && forall i | 0 <= i < |ts| :: ts[i].kind == Kind.Word
    ensures Good(WriteAll(u, st, ts)) && Ready(WriteAll(u, st, ts)) && LastNotOperator(WriteAll(u, st, ts))
    decreases |ts|
  {
    hide Write, Good, EdgeOf;
    WriteGood(u, st, ts[0], true);
    if ts[1..] != [] {
      WriteAllGood(u, Write(u, st, ts[0], true), ts[1..]);
    }
  }

  lemma {:induction false} ClauseGood(u: Runes, st: State, ts: seq<Token>, kw: seq<string>, indent: nat)
    requires Good(st) && kw != [] && AllFine(ts) && ts != [] && forall i | 0 <= i < |ts| :: ts[i].kind == Kind.Word
    ensures Good(WriteClause(u, st, ts, kw, indent)) && Ready(WriteClause(u, st, ts, kw, indent))
  {
    hide Write, Newline, WriteAll, Good, Ready, LastNotOperator, EdgeOf, Flat;
    NewlineGood(st, indent);
    NewlineGood(st, indent + 1);
    WriteAllGood(u, BeforeClause(st, kw, indent), ts);
    NewlineGood(WriteAll(u, BeforeClause(st, kw, indent), ts), indent + 1);
  }

  lemma {:induction false} PlainGood(u: Runes, st: State, t: Token, indent: nat, inline: bool, clause: string,
                                     between: bool)
    requires Good(st) && Ready(st) && Fine(t)
    ensures Good(WritePlain(u, st, t, indent, inline, clause, between))
            && Ready(WritePlain(u, st, t, indent, inline, clause, between))
  {
    hide Write, Newline, Good, Ready, LastNotOperator, EdgeOf, Flat, IsKeyword;
    NewlineGood(st, indent + 1);
    if !inline && BreaksLine(u, t, clause, between) {
      WriteGood(u, Newline(st, indent + 1), t, t.kind == Kind.Word && IsKeyword(u.upper(t.s)));
    } else {
      WriteGood(u, st, t, t.kind == Kind.Word && IsKeyword(u.upper(t.s)));
    }
  }

  lemma {:induction false} WordGood(u: Runes, ts: seq<Token>, c: Cursor, indent: nat, inline: bool)
    requires AllFine(ts) && c.i < |ts| && Good(c.st) && Ready(c.st)
    ensures var r := AdvanceWord(u, ts, c, indent, inline); Good(r.st) && Ready(r.st)
  {
    hide WriteClause, WritePlain, ClauseAt, StillBetween, Good, Ready, Is;
    var kw := ClauseAt(u, ts, c.i);
    if !inline && kw != [] {
      var ws := ts[c.i..c.i + |kw|];
      ClauseIsWords(u, ts, c.i, kw);
      ClauseGood(u, c.st, ws, kw, indent);
    } else {
      PlainGood(u, c.st, ts[c.i], indent, inline, c.clause, c.between);
    }
  }

  lemma {:induction false} ClauseIsWords(u: Runes, ts: seq<Token>, i: nat, kw: seq<string>)
    requires AllFine(ts) && StandsAt(u, ts, i, kw)
    ensures var ws := ts[i..i + |kw|]; AllFine(ws) && forall k | 0 <= k < |ws| :: ws[k].kind == Kind.Word
  {
    var ws := ts[i..i + |kw|];
    forall k | 0 <= k < |ws|
      ensures ws[k].kind == Kind.Word
    {
      assert Is(u, ts[i + k], kw[k]);
    }
  }

  /** Good as long as there are tokens to write, and ready for the next of them. */
  predicate GoodAt(ts: seq<Token>, st: State, i: nat) {
    Good(st) && (i < |ts| ==> Ready(st))
  }

  lemma {:induction false} AdvanceGood(u: Runes, ts: seq<Token>, c: Cursor, indent: nat, inline: bool)
    requires AllFine(ts) && !AtEnd(ts, c.i) && GoodAt(ts, c.st, c.i)
    ensures var r := Advance(u, ts, c, indent, inline); GoodAt(ts, r.st, r.i)
    decreases |ts| - c.i, 1
  {
    hide Parenthesis, Write, Newline, AdvanceWord, Good, Ready, LastNotOperator;
    if ts[c.i].kind == Open {
      ParenthesisGood(u, ts, c.st, c.i, indent);
      var (inner, j) := Parenthesis(u, ts, c.st, c.i, indent);
      if j < |ts| {
        WriteGood(u, inner, ts[j], false);
      }
    } else if ts[c.i].kind == Comma {
      CommaGood(u, c.st, ts[c.i], indent);
    } else {
      WordGood(u, ts, c, indent, inline);
    }
  }

  lemma {:induction false} CommaGood(u: Runes, st: State, t: Token, indent: nat)
    requires Good(st) && Fine(t) && t.kind == Comma
    ensures var w := Write(u, st, t, false);
            Good(w) && Ready(w) && Good(Newline(w, indent + 1)) && Ready(Newline(w, indent + 1))
  {
    hide Write, Newline, Good, EdgeOf;
    WriteGood(u, st, t, false);
    NewlineGood(Write(u, st, t, false), indent + 1);
  }

  lemma {:induction false} LevelGood(u: Runes, ts: seq<Token>, c: Cursor, indent: nat, inline: bool)
    requires AllFine(ts) && GoodAt(ts, c.st, c.i)
    ensures var r := Level(u, ts, c, indent, inline); GoodAt(ts, r.st, r.i)
    decreases |ts| - c.i, 2
  {
    hide Advance, GoodAt;
    if !AtEnd(ts, c.i) {
      AdvanceGood(u, ts, c, indent, inline);
      LevelGood(u, ts, Advance(u, ts, c, indent, inline), indent, inline);
    }
  }

  lemma {:induction false} ParenthesisGood(u: Runes, ts: seq<Token>, st: State, i: nat, indent: nat)
    requires AllFine(ts) && i < |ts| && ts[i].kind == Open && Good(st)
    ensures var r := Parenthesis(u, ts, st, i, indent); Good(r.0)
    decreases |ts| - i, 0
  {
    hide Level, Write, Newline, StartsSubquery, Good, EdgeOf, Ready;
    var w := Write(u, st, ts[i], false);
    WriteGood(u, st, ts[i], false);
    var n := st.lineIndent + 1;
    if StartsSubquery(u, ts, i + 1) {
      NewlineGood(w, n);
      var c := Cursor(Newline(w, n), i + 1, "", false);
      LevelGood(u, ts, c, n, false);
      NewlineGood(Level(u, ts, c, n, false).st, st.lineIndent);
    } else {
      LevelGood(u, ts, Cursor(w, i + 1, "", false), indent, true);
    }
  }

  lemma {:induction false} AllGood(u: Runes, ts: seq<Token>, st: State, i: nat)
    requires AllFine(ts) && GoodAt(ts, st, i)
    ensures Good(All(u, ts, st, i))
    decreases |ts| - i
  {
    hide Level, Write, Good, Ready;
    var c := Cursor(st, i, "", false);
    LevelGood(u, ts, c, 0, false);
    var r := Level(u, ts, c, 0, false);
    if r.i < |ts| {
      WriteGood(u, r.st, ts[r.i], false);
      AllGood(u, ts, Write(u, r.st, ts[r.i], false), r.i + 1);
    }
  }

  /** The pieces of a formatted statement. */
  lemma {:induction false} FormattedIsLaid(u: Runes, ts: seq<Token>)
    requires AllFine(ts)
    ensures Laid(OPEN_EDGE, All(u, ts, START, 0).out)
  {
    hide All;
    AllGood(u, ts, START, 0);
  }
}
