/**
  Formatting a formatted statement changes nothing: the layout does not depend on the text
  of an open quote, which is the only token that trimming can shorten.
 */
module SqlFormatAgain {
  import opened SqlTokens
  import opened SqlFormat
  import opened SqlFormatTokens
  import opened SqlFormatRoundTrip
  import opened SqlFormatText

  // ----- two lists that differ in the text of their last token -----

  predicate IsText(t: Token) {
    (t.kind == Literal || t.kind == Quoted) && t.s != "::"
  }

  predicate Twins(ts: seq<Token>, ts': seq<Token>) {
    && |ts| == |ts'| > 0 && ts[..|ts| - 1] == ts'[..|ts| - 1]
    && IsText(ts[|ts| - 1]) && IsText(ts'[|ts| - 1]) && ts[|ts| - 1].kind == ts'[|ts| - 1].kind
  }

  lemma {:induction false} TwinAt(ts: seq<Token>, ts': seq<Token>, i: nat)
    requires Twins(ts, ts') && i < |ts|
    ensures ts'[i].kind == ts[i].kind && (i < |ts| - 1 ==> ts'[i] == ts[i])
    ensures ts[i].kind == Kind.Word || ts[i].kind == Open || ts[i].kind == Close || ts[i].kind == Comma ==> i < |ts| - 1
  {
    var n := |ts| - 1;
    if i < n {
      assert ts[i] == ts[..n][i] && ts'[i] == ts'[..n][i];
    }
  }

  /** The pieces differ in the last token only. */
  predicate SwappedAt(o: seq<Piece>, o': seq<Piece>, t: Token, t': Token, k: nat) {
    k < |o| && o[k] == Tok(t) && o' == o[k := Tok(t')] && forall j | k < j < |o| :: o[j].Gap?
  }

  ghost predicate Swapped(o: seq<Piece>, o': seq<Piece>, t: Token, t': Token) {
    exists k: nat :: SwappedAt(o, o', t, t', k)
  }

  lemma {:induction false} SwappedSnoc(o: seq<Piece>, o': seq<Piece>, t: Token, t': Token, g: Piece)
    requires Swapped(o, o', t, t') && g.Gap?
    ensures Swapped(o + [g], o' + [g], t, t')
  {
    var k: nat :| SwappedAt(o, o', t, t', k);
    assert SwappedAt(o + [g], o' + [g], t, t', k);
  }

  /** The same so far; once the last token is written, the same but for it. */
  ghost predicate Same(ts: seq<Token>, ts': seq<Token>, st: State, st': State, i: nat)
    requires Twins(ts, ts')
  {
    if i < |ts| then st == st'
    else st.lineIndent == st'.lineIndent && Swapped(st.out, st'.out, ts[|ts| - 1], ts'[|ts| - 1])
  }

  ghost predicate SameCursor(ts: seq<Token>, ts': seq<Token>, c: Cursor, c': Cursor)
    requires Twins(ts, ts')
  {
    c.i == c'.i && Same(ts, ts', c.st, c'.st, c.i) && (c.i < |ts| ==> c == c')
  }

  lemma {:induction false} SameNewline(ts: seq<Token>, ts': seq<Token>, st: State, st': State, i: nat, indent: nat)
    requires Twins(ts, ts') && Same(ts, ts', st, st', i)
    ensures Same(ts, ts', Newline(st, indent), Newline(st', indent), i)
  {
    hide Twins, Swapped;
    SameLength(ts, ts');
    if i >= |ts| {
      SwappedSnoc(st.out, st'.out, ts[|ts| - 1], ts'[|ts| - 1], Gap("\n" + Indent(indent)));
    }
  }

  lemma {:induction false} WriteLast(u: Runes, ts: seq<Token>, ts': seq<Token>, st: State)
    requires Twins(ts, ts')
    ensures Same(ts, ts', Write(u, st, ts[|ts| - 1], false), Write(u, st, ts'[|ts| - 1], false), |ts|)
  {
    hide IsKeyword, IsUpperKeyword, Flat;
    var t, t' := ts[|ts| - 1], ts'[|ts| - 1];
    var o, o' := Write(u, st, t, false).out, Write(u, st, t', false).out;
    assert Spaced(st, t) == Spaced(st, t');
    assert SwappedAt(o, o', t, t', |o| - 1);
  }

  // ----- the same clauses stand -----

  lemma {:induction false} StandingIsWord(u: Runes, ts: seq<Token>, i: nat, kw: seq<string>, m: nat)
    requires StandsAt(u, ts, i, kw) && i <= m < i + |kw|
    ensures ts[m].kind == Kind.Word
  {
    assert Is(u, ts[i + (m - i)], kw[m - i]);
  }

  lemma {:induction false} StandsBoth(u: Runes, ts: seq<Token>, ts': seq<Token>, i: nat, kw: seq<string>)
    requires Twins(ts, ts')
    ensures StandsAt(u, ts, i, kw) <==> StandsAt(u, ts', i, kw)
  {
    hide Twins;
    SameLength(ts, ts');
    forall k | 0 <= k < |kw| && i + |kw| <= |ts|
      ensures Is(u, ts[i + k], kw[k]) <==> Is(u, ts'[i + k], kw[k])
    {
      TwinAt(ts, ts', i + k);
    }
  }

  lemma {:induction false} ClauseBoth(u: Runes, ts: seq<Token>, ts': seq<Token>, i: nat, kws: seq<seq<string>>)
    requires Twins(ts, ts')
    ensures FirstStanding(u, ts, i, kws) == FirstStanding(u, ts', i, kws)
  {
    hide Twins, StandsAt;
    if kws != [] {
      StandsBoth(u, ts, ts', i, kws[0]);
      ClauseBoth(u, ts, ts', i, kws[1..]);
    }
  }

  lemma {:induction false} ClauseAtBoth(u: Runes, ts: seq<Token>, ts': seq<Token>, i: nat)
    requires Twins(ts, ts')
    ensures ClauseAt(u, ts, i) == ClauseAt(u, ts', i)
  {
    hide Twins, FirstStanding;
    ClauseBoth(u, ts, ts', i, CLAUSES);
  }

  /** A clause does not reach the last token. */
  lemma {:induction false} ClauseBefore(u: Runes, ts: seq<Token>, ts': seq<Token>, i: nat)
    requires Twins(ts, ts') && i < |ts| && ClauseAt(u, ts, i) != []
    ensures i + |ClauseAt(u, ts, i)| < |ts|
    ensures ts[i..i + |ClauseAt(u, ts, i)|] == ts'[i..i + |ClauseAt(u, ts, i)|]
  {
    hide StandsAt, ClauseAt;
    var kw := ClauseAt(u, ts, i);
    StandingIsWord(u, ts, i, kw, i + |kw| - 1);
    TwinAt(ts, ts', i + |kw| - 1);
    var n := |ts| - 1;
    assert ts[i..i + |kw|] == ts[..n][i..i + |kw|] && ts'[i..i + |kw|] == ts'[..n][i..i + |kw|];
  }

  lemma {:induction false} SubqueryBoth(u: Runes, ts: seq<Token>, ts': seq<Token>, i: nat)
    requires Twins(ts, ts')
    ensures StartsSubquery(u, ts, i) == StartsSubquery(u, ts', i)
  {
    hide Twins;
    if i < |ts| {
      TwinAt(ts, ts', i);
    }
    SameLength(ts, ts');
  }

  lemma {:induction false} SameLength(ts: seq<Token>, ts': seq<Token>)
    requires Twins(ts, ts')
    ensures |ts| == |ts'| > 0
  {
  }

  // ----- the same layout -----

  lemma {:induction false} PlainBoth(u: Runes, ts: seq<Token>, ts': seq<Token>, c: Cursor, indent: nat, inline: bool)
    requires Twins(ts, ts') && c.i < |ts|
    ensures Same(ts, ts', WritePlain(u, c.st, ts[c.i], indent, inline, c.clause, c.between),
                 WritePlain(u, c.st, ts'[c.i], indent, inline, c.clause, c.between), c.i + 1)
  {
    hide Twins, Write, Newline, IsKeyword, Swapped;
    TwinAt(ts, ts', c.i);
    if c.i == |ts| - 1 {
      LastIsText(ts, ts');
      WriteLast(u, ts, ts', c.st);
    }
  }

  lemma {:induction false} WordBoth(u: Runes, ts: seq<Token>, ts': seq<Token>, c: Cursor, indent: nat, inline: bool)
    requires Twins(ts, ts') && c.i < |ts|
    ensures SameCursor(ts, ts', AdvanceWord(u, ts, c, indent, inline), AdvanceWord(u, ts', c, indent, inline))
  {
    hide Twins, WriteClause, WritePlain, ClauseAt, Swapped, StillBetween, StandsAt;
    SameLength(ts, ts');
    ClauseAtBoth(u, ts, ts', c.i);
    TwinAt(ts, ts', c.i);
    if !inline && ClauseAt(u, ts, c.i) != [] {
      ClauseBefore(u, ts, ts', c.i);
    } else {
      PlainBoth(u, ts, ts', c, indent, inline);
    }
  }

  lemma {:induction false} LastIsText(ts: seq<Token>, ts': seq<Token>)
    requires Twins(ts, ts')
    ensures IsText(ts[|ts| - 1]) && IsText(ts'[|ts| - 1])
  {
  }

  lemma {:induction false} AdvanceBoth(u: Runes, ts: seq<Token>, ts': seq<Token>, c: Cursor, indent: nat, inline: bool)
    requires Twins(ts, ts') && !AtEnd(ts, c.i)
    ensures !AtEnd(ts', c.i)
    ensures SameCursor(ts, ts', Advance(u, ts, c, indent, inline), Advance(u, ts', c, indent, inline))
    decreases |ts| - c.i, 1
  {
    hide Twins, Parenthesis, Write, Newline, AdvanceWord, Swapped;
    SameLength(ts, ts');
    TwinAt(ts, ts', c.i);
    if ts[c.i].kind == Open {
      ParenthesisBoth(u, ts, ts', c.st, c.i, indent);
      var j := Parenthesis(u, ts, c.st, c.i, indent).1;
      if j < |ts| {
        TwinAt(ts, ts', j);
      }
    } else if ts[c.i].kind != Comma {
      WordBoth(u, ts, ts', c, indent, inline);
    }
  }

  lemma {:induction false} LevelBoth(u: Runes, ts: seq<Token>, ts': seq<Token>, c: Cursor, c': Cursor, indent: nat,
                                     inline: bool)
    requires Twins(ts, ts') && SameCursor(ts, ts', c, c')
    ensures SameCursor(ts, ts', Level(u, ts, c, indent, inline), Level(u, ts', c', indent, inline))
    decreases |ts| - c.i, 2
  {
    hide Twins, Advance, Same;
    SameLength(ts, ts');
    if c.i < |ts| {
      TwinAt(ts, ts', c.i);
      if !AtEnd(ts, c.i) {
        AdvanceBoth(u, ts, ts', c, indent, inline);
        LevelBoth(u, ts, ts', Advance(u, ts, c, indent, inline), Advance(u, ts', c, indent, inline), indent, inline);
      }
    }
  }

  lemma {:induction false} ParenthesisBoth(u: Runes, ts: seq<Token>, ts': seq<Token>, st: State, i: nat, indent: nat)
    requires Twins(ts, ts') && i < |ts| && ts[i].kind == Open
    ensures i < |ts'|
    ensures var r, r' := Parenthesis(u, ts, st, i, indent), Parenthesis(u, ts', st, i, indent);
            r.1 == r'.1 && Same(ts, ts', r.0, r'.0, r.1)
    decreases |ts| - i, 0
  {
    hide Twins, Level, Write, Newline, StartsSubquery, Swapped;
    SameLength(ts, ts');
    TwinAt(ts, ts', i);
    SubqueryBoth(u, ts, ts', i + 1);
    var w := Write(u, st, ts[i], false);
    var n := st.lineIndent + 1;
    if StartsSubquery(u, ts, i + 1) {
      var c := Cursor(Newline(w, n), i + 1, "", false);
      LevelBoth(u, ts, ts', c, c, n, false);
      var r, r' := Level(u, ts, c, n, false), Level(u, ts', c, n, false);
      SameNewline(ts, ts', r.st, r'.st, r.i, st.lineIndent);
    } else {
      var c := Cursor(w, i + 1, "", false);
      LevelBoth(u, ts, ts', c, c, indent, true);
    }
  }

  lemma {:induction false} AllBoth(u: Runes, ts: seq<Token>, ts': seq<Token>, st: State, i: nat)
    requires Twins(ts, ts') && i < |ts|
    ensures Same(ts, ts', All(u, ts, st, i), All(u, ts', st, i), |ts|)
    decreases |ts| - i
  {
    hide Twins, Level, Write, Swapped;
    SameLength(ts, ts');
    var c := Cursor(st, i, "", false);
    LevelBoth(u, ts, ts', c, c, 0, false);
    var r := Level(u, ts, c, 0, false);
    if r.i < |ts| {
      TwinAt(ts, ts', r.i);
      AllBoth(u, ts, ts', Write(u, r.st, ts[r.i], false), r.i + 1);
    }
  }

  // ----- and the same text -----

  lemma {:induction false} DropLeadSwapped(o: seq<Piece>, o': seq<Piece>, t: Token, t': Token, k: nat)
    requires SwappedAt(o, o', t, t', k)
    ensures Swapped(DropLead(o), DropLead(o'), t, t')
    decreases |o|
  {
    if o[0].Gap? {
      assert SwappedAt(o[1..], o'[1..], t, t', k - 1);
      DropLeadSwapped(o[1..], o'[1..], t, t', k - 1);
    } else {
      assert SwappedAt(DropLead(o), DropLead(o'), t, t', k);
    }
  }

  lemma {:induction false} ChopSwapped(u: Runes, o: seq<Piece>, o': seq<Piece>, t: Token, t': Token, k: nat)
    requires SwappedAt(o, o', t, t', k) && Chopped(u, t) == Chopped(u, t')
    ensures Chop(u, o) == Chop(u, o')
    decreases |o|
  {
    hide Chopped;
    var n := |o| - 1;
    if k < n {
      assert o[n].Gap? && o'[n] == o[n];
      assert o'[..n] == o[..n][k := Tok(t')];
      ChopSwapped(u, o[..n], o'[..n], t, t', k);
    } else {
      assert o[..n] == o'[..n];
    }
  }

  lemma {:induction false} SameText(u: Runes, o: seq<Piece>, o': seq<Piece>, t: Token, t': Token)
    requires Swapped(o, o', t, t') && Chopped(u, t) == Chopped(u, t')
    ensures Chop(u, DropLead(o)) == Chop(u, DropLead(o'))
  {
    hide Chopped, Chop, DropLead;
    var k: nat :| SwappedAt(o, o', t, t', k);
    DropLeadSwapped(o, o', t, t', k);
    var j: nat :| SwappedAt(DropLead(o), DropLead(o'), t, t', j);
    ChopSwapped(u, DropLead(o), DropLead(o'), t, t', j);
  }

  lemma {:induction false} ChoppedTwice(u: Runes, t: Token)
    ensures Chopped(u, Chopped(u, t)) == Chopped(u, t)
  {
    TrimRightSplit(u, t.s);
  }

  /** The tokens of a statement and of its formatted text are twins, or the same. */
  lemma {:induction false} ChopLastTwins(u: Runes, ts: seq<Token>)
    requires Lawful(u) && Readable(u, ts)
    ensures ChopLast(u, ts) == ts || Twins(ts, ChopLast(u, ts))
  {
    hide Lawful, Proper, Closed, TrimRight;
    if ts != [] {
      var n := |ts| - 1;
      assert Proper(u, ts[n]);
      ChoppedIsSame(u, ts[n]);
      ChoppedIsProper(u, ts[n]);
      if !Closed(ts[n]) {
        QuotedText(u, ts[n]);
        QuotedText(u, Chopped(u, ts[n]));
        assert ChopLast(u, ts)[..n] == ts[..n];
      }
    }
  }

  lemma {:induction false} QuotedText(u: Runes, t: Token)
    requires Proper(u, t) && !Closed(t)
    ensures IsText(t)
  {
    hide IsOperator;
  }

  /** Formatting twice is formatting once, whenever no cast stands beside another operator. */
  lemma {:induction false} FormatTwice(u: Runes, q: string)
    requires Lawful(u) && NoGlue(Tokens(u, q))
    ensures Format(u, Format(u, q)) == Format(u, q)
  {
    hide Lawful, Tokens, All, NoGlue, Trim, Readable, Twins, Chop, DropLead, Chopped, Laid, Flat, Written, Swapped;
    var ts := Tokens(u, q);
    var ts' := ChopLast(u, ts);
    FormatReads(u, q);
    TokensAreReadable(u, q);
    ChopLastTwins(u, ts);
    if ts' != ts {
      SameLength(ts, ts');
      AllBoth(u, ts, ts', START, 0);
      ChopLastReadable(u, ts);
      FormatPieces(u, ts);
      FormatPieces(u, ts');
      ChoppedTwice(u, ts[|ts| - 1]);
      SameText(u, All(u, ts, START, 0).out, All(u, ts', START, 0).out, ts[|ts| - 1], ts'[|ts| - 1]);
    }
  }
}
