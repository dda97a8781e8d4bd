/**
  FormatSQL, and the tokens of what it returns.
 */
module SqlFormatText {
  import opened SqlTokens
  import opened SqlFormat
  import opened SqlFormatLaws
  import opened SqlFormatTokens
  import opened SqlFormatRoundTrip

  // ----- trimming -----

  function TrimLeft(u: Runes, s: string): string {
    if s != [] && u.isSpace(s[0]) then TrimLeft(u, s[1..]) else s
  }

  function TrimRight(u: Runes, s: string): string {
    if s != [] && u.isSpace(s[|s| - 1]) then TrimRight(u, s[..|s| - 1]) else s
  }

  function Trim(u: Runes, s: string): string {
    TrimRight(u, TrimLeft(u, s))
  }

  /** The statement, laid out. */
  function Format(u: Runes, q: string): string {
    Trim(u, Flat(All(u, Tokens(u, q), START, 0).out))
  }

  method FormatSQL(u: Runes, q: string) returns (r: string)
    ensures r == Format(u, q)
  {
    hide All;
    var toks := Tokenize(u, q);
    var f := new Formatter(u, toks);
    f.PutAll();
    r := Trim(u, f.b);
  }

  lemma {:induction false} TrimLeftBlank(u: Runes, g: string, s: string)
    requires Lawful(u) && forall i | 0 <= i < |g| :: g[i] == ' ' || g[i] == '\n'
    ensures TrimLeft(u, g + s) == TrimLeft(u, s)
    decreases |g|
  {
    if g == [] {
      assert g + s == s;
    } else {
      assert (g + s)[1..] == g[1..] + s;
      TrimLeftBlank(u, g[1..], s);
    }
  }

  lemma {:induction false} TrimRightSpaces(u: Runes, s: string, g: string)
    requires forall i | 0 <= i < |g| :: u.isSpace(g[i])
    ensures TrimRight(u, s + g) == TrimRight(u, s)
    decreases |g|
  {
    if g == [] {
      assert s + g == s;
    } else {
      var w := s + g;
      assert w[..|w| - 1] == s + g[..|g| - 1] && w[|w| - 1] == g[|g| - 1];
      TrimRightSpaces(u, s, g[..|g| - 1]);
    }
  }

  /** What trimming removes is whitespace. */
  lemma {:induction false} TrimRightSplit(u: Runes, s: string)
    ensures var r := TrimRight(u, s);
            && r <= s && (forall i | |r| <= i < |s| :: u.isSpace(s[i]))
            && (r != [] ==> !u.isSpace(r[|r| - 1]))
    decreases |s|
  {
    if s != [] && u.isSpace(s[|s| - 1]) {
      TrimRightSplit(u, s[..|s| - 1]);
    }
  }

  /** A text that starts with no space is trimmed inside its last part. */
  lemma {:induction false} TrimRightConcat(u: Runes, a: string, s: string)
    requires s != [] && !u.isSpace(s[0])
    ensures TrimRight(u, a + s) == a + TrimRight(u, s) && TrimRight(u, s) != [] && TrimRight(u, s)[0] == s[0]
    decreases |s|
  {
    var n := |s| - 1;
    var w := a + s;
    if u.isSpace(s[n]) {
      assert w[..|w| - 1] == a + s[..n];
      TrimRightConcat(u, a, s[..n]);
    }
  }

  // ----- the pieces after trimming -----

  /** The pieces without the whitespace at the start. */
  function DropLead(ps: seq<Piece>): seq<Piece> {
    if ps != [] && ps[0].Gap? then DropLead(ps[1..]) else ps
  }

  function Chopped(u: Runes, t: Token): Token {
    Token(TrimRight(u, t.s), t.kind)
  }

  /** The pieces without the whitespace at the end, that of the last token included. */
  function Chop(u: Runes, ps: seq<Piece>): seq<Piece> {
    if ps == [] then []
    else if ps[|ps| - 1].Gap? then Chop(u, ps[..|ps| - 1])
    else ps[..|ps| - 1] + [Tok(Chopped(u, ps[|ps| - 1].t))]
  }

  /** The tokens with the last one chopped. */
  function ChopLast(u: Runes, ts: seq<Token>): (r: seq<Token>)
    ensures |r| == |ts|
  {
    if ts == [] then [] else ts[..|ts| - 1] + [Chopped(u, ts[|ts| - 1])]
  }

  lemma {:induction false} TrimLeftPieces(u: Runes, e: Edge, ps: seq<Piece>)
    requires Lawful(u) && e.last.None? && Laid(e, ps) && Readable(u, Written(ps))
    ensures TrimLeft(u, Flat(ps)) == Flat(DropLead(ps))
    ensures Laid(e, DropLead(ps)) && Written(DropLead(ps)) == Written(ps)
    decreases |ps|
  {
    hide Lawful, Glued, Touches, Readable, Proper;
    if ps != [] {
      if ps[0].Gap? {
        TrimLeftBlank(u, ps[0].g, Flat(ps[1..]));
        TrimLeftPieces(u, Past(e, ps[0]), ps[1..]);
        GapAtStart(e, Past(e, ps[0]), DropLead(ps[1..]));
      } else {
        ReadableCons(u, ps[0].t, Written(ps[1..]));
        ProperStarts(u, ps[0].t);
        assert Flat(ps)[0] == ps[0].t.s[0];
      }
    }
  }

  /** With no token before, it makes no difference whether whitespace came first. */
  lemma {:induction false} GapAtStart(e: Edge, f: Edge, ps: seq<Piece>)
    requires e.last.None? && f.last.None? && Laid(f, ps)
    ensures Laid(e, ps)
    decreases |ps|
  {
    hide Glued, Touches, Blank;
    if ps != [] && ps[0].Gap? {
      GapAtStart(Past(e, ps[0]), Past(f, ps[0]), ps[1..]);
    }
  }

  lemma {:induction false} ProperStarts(u: Runes, t: Token)
    requires Proper(u, t)
    ensures t.s != [] && !u.isSpace(t.s[0])
  {
  }

  /** Chopping only the text of a quoted token matters to the layout. */
  lemma {:induction false} ChoppedFits(u: Runes, e: Edge, t: Token)
    requires Lawful(u) && Proper(u, t) && Fits(e, Tok(t))
    ensures Fits(e, Tok(Chopped(u, t)))
  {
    ChoppedIsSame(u, t);
  }

  lemma {:induction false} QuoteRunEnds(q: char, rs: string)
    requires QuoteCloses(q, rs)
    ensures var n := QuoteRun(q, rs); n > 0 && rs[n - 1] == q
    decreases |rs|
  {
    if rs[0] == q {
      if q == '\'' && |rs| > 1 && rs[1] == '\'' {
        QuoteRunEnds(q, rs[2..]);
      }
    } else {
      QuoteRunEnds(q, rs[1..]);
    }
  }

  lemma {:induction false} WholeEnds(u: Runes, t: Token)
    requires Lawful(u) && Whole(u, t)
    ensures t.s != [] && !u.isSpace(t.s[|t.s| - 1])
  {
    hide Lawful, IsOperator;
    var n := |t.s|;
    if IsQuote(t.s[0]) {
      QuoteRunEnds(t.s[0], t.s[1..]);
      NoSpaceQuote(u, t.s[0]);
    } else {
      PlainFirst(u, t.s, n - 1);
    }
  }

  /** Only an open quote can be chopped. */
  lemma {:induction false} ChoppedIsSame(u: Runes, t: Token)
    requires Lawful(u) && Proper(u, t)
    ensures Closed(t) ==> Chopped(u, t) == t
    ensures !Closed(t) ==> t.kind == Literal || t.kind == Quoted
    ensures Chopped(u, t).s != [] && Chopped(u, t).s[0] == t.s[0]
  {
    hide Lawful;
    TrimRightConcat(u, [], t.s);
    assert [] + t.s == t.s;
    if Closed(t) {
      WholeEnds(u, t);
    }
  }

  /** Whitespace cannot be what closes a quote. */
  lemma {:induction false} ClosesLater(q: char, b: string, g: string)
    requires g == [] || g[0] != q
    ensures QuoteCloses(q, b) ==> QuoteCloses(q, b + g)
    decreases |b|
  {
    if b != [] {
      var w := b + g;
      if b[0] == q {
        if q == '\'' && |b| > 1 && b[1] == '\'' {
          assert w[2..] == b[2..] + g;
          ClosesLater(q, b[2..], g);
        }
      } else {
        assert w[1..] == b[1..] + g;
        ClosesLater(q, b[1..], g);
      }
    }
  }

  /** A chopped token is still one, and still open. */
  lemma {:induction false} ChoppedIsProper(u: Runes, t: Token)
    requires Lawful(u) && Proper(u, t)
    ensures Proper(u, Chopped(u, t)) && (Closed(Chopped(u, t)) <==> Closed(t))
  {
    hide Lawful, IsOperator;
    ChoppedIsSame(u, t);
    if !Closed(t) {
      var q, r := t.s[0], Chopped(u, t).s;
      TrimRightSplit(u, t.s);
      var g := t.s[|r|..];
      assert t.s[1..] == r[1..] + g;
      NoSpaceQuote(u, q);
      ClosesLater(q, r[1..], g);
      OpenQuoteRuns(q, r[1..]);
    }
  }

  lemma {:induction false} TrimRightPieces(u: Runes, ps: seq<Piece>)
    requires Lawful(u) && Laid(OPEN_EDGE, ps) && Readable(u, Written(ps))
    ensures TrimRight(u, Flat(ps)) == Flat(Chop(u, ps))
    ensures Laid(OPEN_EDGE, Chop(u, ps)) && Written(Chop(u, ps)) == ChopLast(u, Written(ps))
    ensures Chop(u, ps) != [] ==> Chop(u, ps)[|Chop(u, ps)| - 1].Tok?
    decreases |ps|
  {
    hide Lawful, Fits, Laid, EdgeOf, Written, Flat, Readable, Proper, TrimRight;
    if ps == [] {
      EmptyFlat();
      TrimNothing(u);
    } else {
      var n := |ps| - 1;
      var before, p := ps[..n], ps[n];
      assert ps == before + [p];
      LaidSnoc(OPEN_EDGE, before, p);
      WrittenSnoc(before, p);
      FlatSnoc(before, p);
      if p.Gap? {
        GapIsSpace(u, EdgeOf(OPEN_EDGE, before), p);
        TrimRightSpaces(u, Flat(before), p.g);
        assert Written(before) + [] == Written(before);
        TrimRightPieces(u, before);
      } else {
        var w := Written(before);
        assert Written(ps) == w + [p.t];
        LastProper(u, w, p.t);
        ProperStarts(u, p.t);
        ChoppedFits(u, EdgeOf(OPEN_EDGE, before), p.t);
        var c := Tok(Chopped(u, p.t));
        LaidSnoc(OPEN_EDGE, before, c);
        WrittenSnoc(before, c);
        FlatSnoc(before, c);
        TrimRightConcat(u, Flat(before), p.t.s);
        assert (w + [p.t])[..|w|] == w;
      }
    }
  }

  lemma {:induction false} TrimNothing(u: Runes)
    ensures TrimRight(u, []) == [] && Written([]) == []
  {
  }

  lemma {:induction false} GapIsSpace(u: Runes, e: Edge, p: Piece)
    requires Lawful(u) && p.Gap? && Fits(e, p)
    ensures forall i | 0 <= i < |p.g| :: u.isSpace(p.g[i])
  {
    hide Lawful;
    BlanksAreSpace(u);
  }

  lemma {:induction false} LastProper(u: Runes, ts: seq<Token>, t: Token)
    requires Readable(u, ts + [t])
    ensures Proper(u, t)
  {
    hide Proper;
    assert (ts + [t])[|ts|] == t;
  }

  // ----- the formatted statement -----

  /** Trimming changes the statement: its last token is an open quote that ends in a space. */
  predicate LosesBlanks(u: Runes, ts: seq<Token>) {
    ts != [] && !Closed(ts[|ts| - 1]) && ts[|ts| - 1].s != [] && u.isSpace(ts[|ts| - 1].s[|ts[|ts| - 1].s| - 1])
  }

  lemma {:induction false} ReadableIsFine(u: Runes, ts: seq<Token>)
    requires Lawful(u) && Readable(u, ts)
    ensures AllFine(ts)
  {
    hide Lawful, Closed;
    forall i | 0 <= i < |ts|
      ensures Fine(ts[i])
    {
      BlanksAreSpace(u);
      assert Proper(u, ts[i]);
    }
  }

  lemma {:induction false} ChopLastReadable(u: Runes, ts: seq<Token>)
    requires Lawful(u) && Readable(u, ts)
    ensures Readable(u, ChopLast(u, ts)) && (NoGlue(ChopLast(u, ts)) <==> NoGlue(ts))
    ensures ChopLast(u, ts) == ts <==> !LosesBlanks(u, ts)
  {
    hide Lawful, Proper, Closed, TrimRight, Glued;
    if ts != [] {
      var n := |ts| - 1;
      var t, c := ts[n], Chopped(u, ts[n]);
      ChoppedIsSame(u, t);
      ChoppedIsProper(u, t);
      ChoppedChanges(u, t);
      var r := ChopLast(u, ts);
      assert forall i | 0 <= i < n :: r[i] == ts[i];
      forall x: Token
        ensures Glued(x, t) <==> Glued(x, c)
      {
        ChoppedGlue(x, t, c);
      }
      assert n > 0 ==> (Glued(r[n - 1], r[n]) <==> Glued(ts[n - 1], ts[n]));
      SameGlue(ts, r);
    }
  }

  lemma {:induction false} SameGlue(ts: seq<Token>, r: seq<Token>)
    requires |ts| == |r| && forall i | 0 <= i < |ts| - 1 :: Glued(ts[i], ts[i + 1]) <==> Glued(r[i], r[i + 1])
    ensures NoGlue(ts) <==> NoGlue(r)
  {
    hide Glued;
  }

  lemma {:induction false} ChoppedGlue(x: Token, t: Token, c: Token)
    requires c == t || (t.kind != Operator && c.kind == t.kind)
    ensures Glued(x, t) <==> Glued(x, c)
  {
  }

  lemma {:induction false} ChoppedChanges(u: Runes, t: Token)
    requires Lawful(u) && Proper(u, t)
    ensures Chopped(u, t) != t <==> !Closed(t) && t.s != [] && u.isSpace(t.s[|t.s| - 1])
  {
    hide Lawful, Proper;
    ChoppedIsSame(u, t);
    TrimRightSplit(u, t.s);
    ProperStarts(u, t);
  }

  /** The pieces of the formatted statement, trimmed. */
  lemma {:induction false} FormatPieces(u: Runes, ts: seq<Token>)
    requires Lawful(u) && Readable(u, ts)
    ensures var ps := Chop(u, DropLead(All(u, ts, START, 0).out));
            && Trim(u, Flat(All(u, ts, START, 0).out)) == Flat(ps)
            && Laid(OPEN_EDGE, ps) && Written(ps) == ChopLast(u, ts)
            && (ps != [] ==> ps[|ps| - 1].Tok?)
  {
    hide Lawful, All, Laid, Flat, Written, Readable, TrimLeft, TrimRight, DropLead, Chop, ChopLast;
    var out := All(u, ts, START, 0).out;
    ReadableIsFine(u, ts);
    EveryTokenOnce(u, ts);
    FormattedIsLaid(u, ts);
    TrimLeftPieces(u, OPEN_EDGE, out);
    TrimRightPieces(u, DropLead(out));
  }

  /** What the formatted statement reads as. */
  lemma {:induction false} FormatReads(u: Runes, q: string)
    requires Lawful(u)
    ensures var ts, r := Tokens(u, q), Tokens(u, Format(u, q));
            && (NoGlue(ts) ==> r == ChopLast(u, ts))
            && (!NoGlue(ts) ==> |ts| > 1 && !(ts[..|ts| - 1] <= r))
  {
    hide Lawful, Tokens, All, Laid, Flat, Written, NoGlue, DropLead, Chop, Readable, Chopped;
    var ts := Tokens(u, q);
    TokensAreReadable(u, q);
    FormatPieces(u, ts);
    ChopLastReadable(u, ts);
    TrimNothing(u);
    PiecesReadBack(u, OPEN_EDGE, Chop(u, DropLead(All(u, ts, START, 0).out)));
  }

  /** For every statement: the formatted text has its tokens if and only if no cast stands
      beside another operator and no open quote ends in a space. */
  lemma {:induction false} FormatKeepsTokens(u: Runes, q: string)
    requires Lawful(u)
    ensures Tokens(u, Format(u, q)) == Tokens(u, q) <==> NoGlue(Tokens(u, q)) && !LosesBlanks(u, Tokens(u, q))
  {
    hide Lawful, Tokens, Format, NoGlue, LosesBlanks, Readable, ChopLast;
    TokensAreReadable(u, q);
    ChopLastReadable(u, Tokens(u, q));
    FormatReads(u, q);
  }

  /** What is returned is the visible text of the statement and whitespace. */
  lemma {:induction false} FormatKeepsText(u: Runes, q: string)
    requires Lawful(u)
    ensures Text(Written(All(u, Tokens(u, q), START, 0).out)) == Visible(u, None, q)
  {
    hide Tokens, All, Visible;
    EveryTokenOnce(u, Tokens(u, q));
    TokensAreTheVisibleText(u, q);
  }
}
