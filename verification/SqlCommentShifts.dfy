/**
  A quote in a comment that is closed on a later line, by the quote that opens a literal
  there: the literal is laid out like code.
 */
module SqlCommentShifts {
  import opened SqlTokens
  import opened SqlFormat
  import opened SqlFormatTokens
  import opened SqlFormatRoundTrip
  import opened SqlFormatText
  import opened SqlBreaks
  import opened SqlComments
  import opened SqlLines
  import opened SqlCommentLaws
  import opened SqlCommentDrops
  import opened SqlCommentCuts

  // ----- reading up to the literal -----

  /** Text whose quotes are closed and that starts no comment is read, and what follows. */
  lemma {:induction false} PrefixIsRead(u: Runes, y: string, rest: string)
    requires Lawful(u) && LastClosed(Tokens(u, y)) && NoComments(Tokens(u, y))
    requires rest != [] && IsQuote(rest[0]) && (y == [] || y[|y| - 1] != rest[0])
    ensures Read(u, y + rest) == Tokens(u, y) + Read(u, rest)
    decreases |y|
  {
    hide Lawful, First, Closed, Uncommented, NoComments, Opens, IsQuote, Bounded;
    if y == [] {
      assert y + rest == rest;
    } else if u.isSpace(y[0]) {
      assert y + rest == [y[0]] + (y[1..] + rest);
      SpaceRead(u, y[0], y[1..] + rest);
      PrefixIsRead(u, y[1..], rest);
    } else {
      var (kind, n) := First(u, y);
      var t, x := Token(y[..n], kind), y[n..];
      assert y == t.s + x && y + rest == t.s + (x + rest);
      assert Tokens(u, y) == [t] + Tokens(u, x);
      TokensHead(u, t, x);
      FirstIsProper(u, y);
      FirstIsClosed(u, y);
      FirstIsBounded(u, y);
      NoTokens(u);
      if x == [] {
        assert x + rest == rest;
        QuoteIsBounded(u, t, rest);
      } else {
        SameBound(u, t, x, x + rest);
      }
      TokenIsRead(u, t, x + rest);
      PrefixIsRead(u, x, rest);
    }
  }

  lemma {:induction false} TokensHead(u: Runes, t: Token, x: string)
    requires LastClosed([t] + Tokens(u, x)) && NoComments([t] + Tokens(u, x))
    ensures LastClosed(Tokens(u, x)) && NoComments(Tokens(u, x)) && !Opens(t) && (Tokens(u, x) == [] ==> Closed(t))
  {
    hide Closed, Dashes, Tokens;
    var ts := Tokens(u, x);
    var all := [t] + ts;
    assert all[0] == t;
    assert forall i | 0 <= i < |ts| :: ts[i] == all[i + 1];
    if ts != [] {
      assert all[|all| - 1] == ts[|ts| - 1];
    }
  }

  lemma {:induction false} QuoteIsBounded(u: Runes, t: Token, rest: string)
    requires Lawful(u) && Proper(u, t) && Closed(t) && rest != [] && IsQuote(rest[0]) && t.s[|t.s| - 1] != rest[0]
    ensures Bounded(u, t, rest)
  {
    hide Lawful, IsOperator;
    MarksAreNoWords(u, rest[0]);
    QuoteIsNoOperator(rest[0]);
    if t.kind == Literal {
      QuoteRunEnds('\'', t.s[1..]);
    }
  }

  lemma {:induction false} QuoteIsNoOperator(c: char)
    requires IsQuote(c)
    ensures !IsOperator(c)
  {
  }

  /** The rune after an opening quote is the second of its token. */
  lemma {:induction false} QuoteThen(u: Runes, c: char, w: string)
    requires Lawful(u) && IsQuote(c) && w != []
    ensures var r := Read(u, [c] + w); r != [] && |r[0].s| > 1 && r[0].s[1] == w[0]
  {
    hide Lawful, Uncommented, IsOperator;
    NoSpaceQuote(u, c);
    assert !StartsComment([c] + w);
    KeptRune(c, w);
    assert w == [w[0]] + w[1..];
    KeptInside(c, w[0], w[1..]);
    var v := Uncommented(None, [c] + w);
    assert v[0] == c && v[1] == w[0] && v[1..] != [];
    assert First(u, v).1 == 1 + QuoteRun(c, v[1..]);
    assert QuoteRun(c, v[1..]) >= 1;
  }

  /** Two texts that differ right after the quote are read differently. */
  lemma {:induction false} ReadsApart(u: Runes, y: string, c: char, w: string, w': string)
    requires Lawful(u) && LastClosed(Tokens(u, y)) && NoComments(Tokens(u, y))
    requires IsQuote(c) && (y == [] || y[|y| - 1] != c) && w != [] && w' != [] && w[0] != w'[0]
    ensures Read(u, y + [c] + w) != Read(u, y + [c] + w')
  {
    hide Lawful, Tokens, LastClosed, NoComments, Read;
    assert y + [c] + w == y + ([c] + w) && y + [c] + w' == y + ([c] + w');
    PrefixIsRead(u, y, [c] + w);
    PrefixIsRead(u, y, [c] + w');
    QuoteThen(u, c, w);
    QuoteThen(u, c, w');
    SameHeads(Tokens(u, y), Read(u, [c] + w), Read(u, [c] + w'));
  }

  // ----- what the layout writes after it -----

  lemma {:induction false} AfterBlank(u: Runes, g: string, rest: string, j: nat)
    requires Lawful(u) && j < |Tokens(u, rest)| && forall i | 0 <= i < |g| :: g[i] == ' ' || g[i] == '\n'
    ensures j < |Tokens(u, g + rest)| && After(u, g + rest, j) == After(u, rest, j)
    decreases |g|
  {
    hide First, Lawful;
    BlanksAreSpace(u);
    if g == [] {
      assert g + rest == rest;
    } else {
      assert (g + rest)[1..] == g[1..] + rest;
      AfterBlank(u, g[1..], rest, j);
    }
  }

  /** Whitespace follows a token that the next one does not touch. */
  lemma {:induction false} GapAfter(u: Runes, e: Edge, ps: seq<Piece>, j: nat)
    requires Lawful(u) && Laid(e, ps) && Readable(u, Written(ps)) && Ends(ps) && NoGlue(Written(ps))
    requires j + 1 < |Written(ps)| && !Touches(Written(ps)[j], Written(ps)[j + 1])
    ensures j < |Tokens(u, Flat(ps))|
    ensures var w := After(u, Flat(ps), j); w != [] && (w[0] == ' ' || w[0] == '\n')
    decreases |ps|
  {
    hide Lawful, Tokens, Glued, Touches, Proper, Closed, NoGlue, Ends, Readable, After;
    var rest := ps[1..];
    PiecesReadBack(u, e, ps);
    if ps[0].Gap? {
      EndsTail(ps);
      GapAfter(u, Past(e, ps[0]), rest, j);
      AfterGap(u, e, ps[0], Flat(rest), j);
    } else {
      var t := ps[0].t;
      assert Written(ps) == [t] + Written(rest);
      ReadableCons(u, t, Written(rest));
      NoGlueCons(t, Written(rest));
      EndsTail(ps);
      PiecesReadBack(u, Past(e, ps[0]), rest);
      AfterToken(u, t, Flat(rest), j);
      if j == 0 {
        assert Written(rest)[0] == Written(ps)[1];
        GapFirst(Edge(Some(t), false), rest);
      } else {
        assert Written(rest)[j - 1] == Written(ps)[j] && Written(rest)[j] == Written(ps)[j + 1];
        GapAfter(u, Past(e, ps[0]), rest, j - 1);
      }
    }
  }

  lemma {:induction false} AfterGap(u: Runes, e: Edge, p: Piece, rest: string, j: nat)
    requires Lawful(u) && p.Gap? && Fits(e, p) && j < |Tokens(u, rest)|
    ensures j < |Tokens(u, p.g + rest)| && After(u, p.g + rest, j) == After(u, rest, j)
  {
    hide Lawful, Tokens, After;
    AfterBlank(u, p.g, rest, j);
  }

  lemma {:induction false} AfterToken(u: Runes, t: Token, rest: string, j: nat)
    requires Proper(u, t) && Tokens(u, t.s + rest) != [] && Tokens(u, t.s + rest)[0] == t && j <= |Tokens(u, rest)|
    ensures j < |Tokens(u, t.s + rest)| && After(u, t.s + rest, j) == if j == 0 then rest else After(u, rest, j - 1)
  {
    hide First;
    var w := t.s + rest;
    assert w[0] == t.s[0];
    var (kind, n) := First(u, w);
    assert Token(w[..n], kind) == t;
    AfterFirst(u, t, rest, j);
  }

  lemma {:induction false} GapFirst(e: Edge, ps: seq<Piece>)
    requires e.last.Some? && !e.gap && Laid(e, ps) && Written(ps) != [] && !Touches(e.last.value, Written(ps)[0])
    ensures Flat(ps) != [] && (Flat(ps)[0] == ' ' || Flat(ps)[0] == '\n')
  {
    hide Touches, Glued;
    assert ps[0].Gap?;
  }

  lemma {:induction false} FormatGapAfter(u: Runes, q: string, j: nat)
    requires Lawful(u) && NoGlue(Tokens(u, q)) && j + 1 < |Tokens(u, q)|
    requires !Touches(Tokens(u, q)[j], Tokens(u, q)[j + 1])
    ensures j < |Tokens(u, Format(u, q))|
    ensures var w := After(u, Format(u, q), j); w != [] && (w[0] == ' ' || w[0] == '\n')
  {
    hide Lawful, Tokens, All, Laid, Flat, Written, NoGlue, DropLead, Chop, Readable, Chopped, After, Touches;
    var ts := Tokens(u, q);
    TokensAreReadable(u, q);
    FormatPieces(u, ts);
    ChopLastReadable(u, ts);
    TrimNothing(u);
    ChoppedTouch(u, ts, j);
    GapAfter(u, OPEN_EDGE, Chop(u, DropLead(All(u, ts, START, 0).out)), j);
  }

  lemma {:induction false} ChoppedTouch(u: Runes, ts: seq<Token>, j: nat)
    requires Lawful(u) && Readable(u, ts) && j + 1 < |ts|
    ensures var cs := ChopLast(u, ts); Touches(cs[j], cs[j + 1]) <==> Touches(ts[j], ts[j + 1])
  {
    hide Lawful, Proper, Closed, Chopped;
    var n := |ts| - 1;
    assert Proper(u, ts[n]);
    ChoppedIsSame(u, ts[n]);
    ChoppedKind(u, ts[n]);
    if !Closed(ts[n]) {
      QuoteIsNoCast(u, ts[n]);
    }
  }

  lemma {:induction false} QuoteIsNoCast(u: Runes, t: Token)
    requires Lawful(u) && Proper(u, t) && (t.kind == Literal || t.kind == Quoted)
    ensures t.s != "::" && Chopped(u, t).s != "::"
  {
    hide Lawful, IsOperator, TrimRight;
    ChoppedIsSame(u, t);
  }

  // ----- the law -----

  /** The line after the comment, up to the quote that closes the comment's: it is whole. */
  ghost predicate WholeLine(u: Runes, t: Token) {
    var line := ToLineEnd(t.s);
    && line != []
    && var y := line[..|line| - 1];
       LastClosed(Tokens(u, y)) && NoComments(Tokens(u, y)) && (y == [] || y[|y| - 1] != line[|line| - 1])
  }

  /** A comment whose quote is closed by the opening quote of a literal on a later line: if
      that literal starts with anything but whitespace, the formatted statement does not read
      the same, because the layout puts whitespace there. */
  lemma {:induction false} QuoteShifts(u: Runes, q: string, j: nat)
    requires Lawful(u) && NoGlue(Tokens(u, q)) && CutAlike(u, q, j) && WholeLine(u, Tokens(u, q)[j])
    requires j + 1 < |Tokens(u, q)| && !Touches(Tokens(u, q)[j], Tokens(u, q)[j + 1])
    ensures Read(u, Format(u, q)) == Read(u, q) ==> After(u, q, j) != [] && u.isSpace(After(u, q, j)[0])
  {
    hide Lawful, Tokens, Format, NoGlue, Read, After, ToLineEnd, CutAlike, Touches, LastClosed, NoComments, Drops,
         Readable;
    var ts := Tokens(u, q);
    var line := ToLineEnd(ts[j].s);
    var y, c := line[..|line| - 1], line[|line| - 1];
    TokensAreReadable(u, q);
    CutReadsTheSame(u, q, j);
    FormatGapAfter(u, q, j);
    CutIsQuoted(u, q, j);
    TextAfter(u, q, j);
    BlanksAreSpace(u);
    assert line == y + [c];
    var w, w' := After(u, q, j), After(u, Format(u, q), j);
    if !u.isSpace(w[0]) {
      ReadsApart(u, y, c, w, w');
    }
  }

  /** A token that holds a line end and is not the last is a closed quote. */
  lemma {:induction false} CutIsQuoted(u: Runes, q: string, j: nat)
    requires Lawful(u) && CutAlike(u, q, j) && j + 1 < |Tokens(u, q)|
    ensures var line := ToLineEnd(Tokens(u, q)[j].s); line != [] && IsQuote(line[|line| - 1])
  {
    hide Lawful, Tokens, Lines, Closed, Drops, Proper, Breaks, LosesBlanks;
    var ts := Tokens(u, q);
    TokensAreReadable(u, q);
    CutHoldsLine(ts, Lines(u, q, false), false);
    assert Proper(u, ts[j]) && Closed(ts[j]);
    LineIsQuoted(u, ts[j]);
  }

  lemma {:induction false} CutHoldsLine(ts: seq<Token>, lines: seq<bool>, dropping: bool)
    requires |ts| == |lines|
    ensures var j := CutAt(ts, lines, dropping); j < |ts| ==> '\n' in ts[j].s
    decreases |ts|
  {
    hide Opens;
    if ts != [] {
      CutHoldsLine(ts[1..], lines[1..], if dropping && !lines[0] then true else Opens(ts[0]));
    }
  }

  lemma {:induction false} LineIsQuoted(u: Runes, t: Token)
    requires Lawful(u) && Proper(u, t) && Closed(t) && '\n' in t.s
    ensures var line := ToLineEnd(t.s); line != [] && IsQuote(line[|line| - 1])
  {
    hide Lawful, IsOperator, ToLineEnd, First;
    LineEndIsEnd(t.s);
    BlanksAreSpace(u);
    var k :| 0 <= k < |t.s| && t.s[k] == '\n';
    if !IsQuote(t.s[0]) {
      PlainFirst(u, t.s, k);
      assert false;
    }
    QuotedIsRun(u, t);
    QuoteRunEnds(t.s[0], t.s[1..]);
  }

  /** There is text after a token that is not the last. */
  lemma {:induction false} TextAfter(u: Runes, rs: string, j: nat)
    requires j + 1 < |Tokens(u, rs)|
    ensures After(u, rs, j) != []
    decreases |rs|
  {
    hide First;
    NoTokens(u);
    if u.isSpace(rs[0]) {
      TextAfter(u, rs[1..], j);
    } else if j > 0 {
      TextAfter(u, rs[First(u, rs).1..], j - 1);
    }
  }
}
