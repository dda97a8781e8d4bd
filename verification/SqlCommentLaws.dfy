/**
  When a statement with line comments reads the same after formatting: for any number of
  comments, by the tokens of the statement, its lines, and the rule by which the layout
  breaks lines.
 */
module SqlCommentLaws {
  import opened SqlTokens
  import opened SqlFormat
  import opened SqlFormatLaws
  import opened SqlFormatTokens
  import opened SqlFormatRoundTrip
  import opened SqlFormatText
  import opened SqlBreaks
  import SqlLayout
  import opened SqlComments
  import opened SqlLines

  // ----- statements without comments -----

  /** What the layout puts side by side starts no comment. */
  lemma {:induction false} LaidMeetsNoDash(u: Runes, t: Token, ps: seq<Piece>)
    requires Lawful(u) && Proper(u, t) && Laid(Edge(Some(t), false), ps)
    requires ps != [] && ps[0].Tok? ==> Proper(u, ps[0].t)
    ensures !MeetsDash(t, Flat(ps))
  {
    hide Lawful, First, IsOperator;
    DashIsOperator();
    if ps != [] {
      if ps[0].Gap? {
        assert Flat(ps)[0] == ps[0].g[0];
      } else {
        var q := ps[0].t;
        assert Flat(ps)[0] == q.s[0];
        StartOf(u, q);
      }
    }
  }

  /** The reader keeps pieces without dashes, up to what follows them. */
  lemma {:induction false} PiecesKept(u: Runes, e: Edge, a: seq<Piece>, x: seq<Piece>)
    requires Lawful(u) && Laid(e, a + x) && Readable(u, Written(a) + Written(x)) && NoComments(Written(a))
    requires (LastClosed(Written(a)) || x == []) && Ends(a)
    ensures Uncommented(None, Flat(a + x)) == Flat(a) + Uncommented(None, Flat(x))
    decreases |a|
  {
    hide Lawful, Uncommented, Proper, Closed, NoComments, Readable, Ends, Fits, Flat;
    if a == [] {
      assert a + x == x;
      EmptyFlat();
    } else {
      var p, b := a[0], a[1..];
      assert a == [p] + b && a + x == [p] + (b + x) && (a + x)[1..] == b + x;
      FlatCons(p, b);
      FlatCons(p, b + x);
      if p.Gap? {
        BlankKept(u, e, p, Flat(b + x));
        EndsTail(a);
        PiecesKept(u, Past(e, p), b, x);
      } else {
        assert Written(a) == [p.t] + Written(b);
        assert Written(a) + Written(x) == [p.t] + (Written(b) + Written(x));
        ReadableCons(u, p.t, Written(b) + Written(x));
        NoCommentsConcat([p.t], Written(b));
        TailEnds(a, x);
        PiecesKept(u, Past(e, p), b, x);
        PieceKept(u, p.t, a, x);
      }
    }
  }

  lemma {:induction false} AllKept(u: Runes, e: Edge, ps: seq<Piece>)
    requires Lawful(u) && Laid(e, ps) && Readable(u, Written(ps)) && NoComments(Written(ps)) && Ends(ps)
    ensures Uncommented(None, Flat(ps)) == Flat(ps)
  {
    hide Lawful, Laid, Readable, NoComments, Ends, Uncommented, Flat, Written;
    TrimNothing(u);
    assert Written(ps) + Written([]) == Written(ps) && ps + [] == ps;
    PiecesKept(u, e, ps, []);
    EmptyFlat();
    NothingKept(' ');
    assert Flat(ps) + [] == Flat(ps);
  }

  lemma {:induction false} FlatCons(p: Piece, ps: seq<Piece>)
    ensures Flat([p] + ps) == (if p.Tok? then p.t.s else p.g) + Flat(ps)
  {
    assert ([p] + ps)[1..] == ps;
  }

  lemma {:induction false} PieceKept(u: Runes, t: Token, a: seq<Piece>, x: seq<Piece>)
    requires Lawful(u) && a != [] && a[0] == Tok(t) && Laid(Edge(Some(t), false), a[1..] + x)
    requires Readable(u, [t] + (Written(a[1..]) + Written(x))) && NoComments([t])
    requires (LastClosed(Written(a)) || x == []) && Ends(a)
    ensures Uncommented(None, t.s + Flat(a[1..] + x)) == t.s + Uncommented(None, Flat(a[1..] + x))
  {
    hide Lawful, Uncommented, Proper, Closed, NoComments, Readable, Ends, MeetsDash, Laid, Flat, Written;
    var b := a[1..];
    ReadableCons(u, t, Written(b) + Written(x));
    NextProper(u, b, x);
    LaidMeetsNoDash(u, t, b + x);
    LoneToken(t);
    OpenIsLast(u, t, a, x);
    TokenKept(u, t, Flat(b + x));
  }

  lemma {:induction false} LoneToken(t: Token)
    requires NoComments([t])
    ensures t.kind == Operator ==> !Dashes(t.s)
  {
    hide Dashes;
    assert [t][0] == t;
  }

  lemma {:induction false} BlankKept(u: Runes, e: Edge, p: Piece, rest: string)
    requires Lawful(u) && p.Gap? && Fits(e, p)
    ensures Uncommented(None, p.g + rest) == p.g + Uncommented(None, rest)
  {
    hide Lawful, Uncommented;
    BlanksKept(p.g, rest);
  }

  lemma {:induction false} BlanksKept(g: string, rest: string)
    requires forall i | 0 <= i < |g| :: g[i] == ' ' || g[i] == '\n'
    ensures Uncommented(None, g + rest) == g + Uncommented(None, rest)
    decreases |g|
  {
    hide Uncommented;
    if g == [] {
      assert g + rest == rest;
    } else {
      assert g + rest == [g[0]] + (g[1..] + rest);
      KeptRune(g[0], g[1..] + rest);
      BlanksKept(g[1..], rest);
    }
  }

  lemma {:induction false} TailEnds(a: seq<Piece>, x: seq<Piece>)
    requires a != [] && a[0].Tok? && Ends(a) && (LastClosed(Written(a)) || x == [])
    ensures Ends(a[1..]) && (LastClosed(Written(a[1..])) || x == [])
  {
    hide Closed;
    var t, b := a[0].t, Written(a[1..]);
    assert Written(a) == [t] + b;
    if b != [] {
      EndsTail(a);
      assert Written(a)[|Written(a)| - 1] == b[|b| - 1];
    }
  }

  lemma {:induction false} NextProper(u: Runes, b: seq<Piece>, x: seq<Piece>)
    requires Readable(u, Written(b) + Written(x))
    ensures b + x != [] && (b + x)[0].Tok? ==> Proper(u, (b + x)[0].t)
  {
    hide Proper, Closed;
    var w := Written(b) + Written(x);
    if b + x != [] && (b + x)[0].Tok? {
      WrittenConcat(b, x);
      assert (b + x)[0].t == w[0];
      assert Proper(u, w[0]);
    }
  }

  /** An open quote is followed by nothing. */
  lemma {:induction false} OpenIsLast(u: Runes, t: Token, a: seq<Piece>, x: seq<Piece>)
    requires a != [] && a[0] == Tok(t) && Ends(a) && (LastClosed(Written(a)) || x == [])
    requires Readable(u, [t] + (Written(a[1..]) + Written(x)))
    ensures Closed(t) || Flat(a[1..] + x) == []
  {
    hide Closed, Proper;
    var b := a[1..];
    assert Written(a) == [t] + Written(b);
    ReadableCons(u, t, Written(b) + Written(x));
    if Written(b) == [] && !LastClosed(Written(a)) {
      assert Written(a)[0] == t;
      LastIsTok(a);
      assert b == [] && b + x == [];
    } else if Written(b) == [] {
      assert Written(a)[|Written(a)| - 1] == t;
    }
  }

  lemma {:induction false} LastIsTok(a: seq<Piece>)
    requires a != [] && a[0].Tok? && Written(a[1..]) == [] && a[|a| - 1].Tok?
    ensures |a| == 1
  {
    if |a| > 1 {
      TokIsWritten(a[1..], |a| - 2);
    }
  }

  lemma {:induction false} TokIsWritten(ps: seq<Piece>, i: nat)
    requires i < |ps|
    ensures ps[i].Tok? ==> Written(ps) != []
    decreases |ps|
  {
    if i > 0 {
      TokIsWritten(ps[1..], i - 1);
    }
  }

  lemma {:induction false} NothingDropped(ts: seq<Token>, lines: seq<bool>)
    requires |ts| == |lines| && NoComments(ts)
    ensures Survivors(ts, lines, false) == ts && CutAt(ts, lines, false) == |ts|
    decreases |ts|
  {
    hide Dashes;
    if ts != [] {
      assert !Opens(ts[0]);
      assert forall i | 0 <= i < |ts[1..]| :: ts[1..][i] == ts[i + 1];
      NothingDropped(ts[1..], lines[1..]);
    }
  }

  /** A statement whose operators hold no dashes is read as it stands. */
  lemma {:induction false} ReadsAsTokens(u: Runes, rs: string)
    requires Lawful(u) && NoComments(Tokens(u, rs))
    ensures Read(u, rs) == Tokens(u, rs)
  {
    hide Read, Tokens, NoComments, Lines, Survivors, CutAt;
    ReadByLines(u, rs);
    NothingDropped(Tokens(u, rs), Lines(u, rs, false));
  }

  /** For every statement whose operators hold no dashes: the formatted text reads the same
      under exactly the condition of its tokens. */
  lemma {:induction false} UncommentedReadsTheSame(u: Runes, q: string)
    requires Lawful(u) && NoComments(Tokens(u, q))
    ensures Read(u, Format(u, q)) == Read(u, q) <==> NoGlue(Tokens(u, q)) && !LosesBlanks(u, Tokens(u, q))
  {
    hide Lawful, Tokens, All, Laid, Flat, Written, NoGlue, DropLead, Chop, Readable, Chopped, NoComments, Uncommented,
         LosesBlanks;
    var ts := Tokens(u, q);
    var ps := Chop(u, DropLead(All(u, ts, START, 0).out));
    TokensAreReadable(u, q);
    FormatPieces(u, ts);
    ChopLastReadable(u, ts);
    ChopLastComments(u, ts);
    TrimNothing(u);
    AllKept(u, OPEN_EDGE, ps);
    ReadsAsTokens(u, q);
    FormatKeepsTokens(u, q);
  }

  lemma {:induction false} ChopLastComments(u: Runes, ts: seq<Token>)
    requires Lawful(u) && Readable(u, ts) && NoComments(ts)
    ensures NoComments(ChopLast(u, ts))
  {
    hide Lawful, Proper, Closed, Dashes, Chopped;
    if ts != [] {
      var n := |ts| - 1;
      assert Proper(u, ts[n]);
      ChoppedIsSame(u, ts[n]);
      ChoppedKind(u, ts[n]);
      var r := ChopLast(u, ts);
      assert |r| == n + 1 && r[n] == Chopped(u, ts[n]);
      forall i | 0 <= i < |r|
        ensures r[i].kind == Operator ==> !Dashes(r[i].s)
      {
        assert ts[i].kind == Operator ==> !Dashes(ts[i].s);
        assert i < n ==> r[i] == ts[i];
      }
    }
  }

  lemma {:induction false} ChoppedKind(u: Runes, t: Token)
    ensures Chopped(u, t).kind == t.kind
  {
  }

  // ----- the lines of the formatted text -----

  lemma {:induction false} BlankLines(u: Runes, g: string, rest: string, begun: bool)
    requires Lawful(u) && forall i | 0 <= i < |g| :: g[i] == ' ' || g[i] == '\n'
    ensures Lines(u, g + rest, begun) == Lines(u, rest, begun || '\n' in g)
    decreases |g|
  {
    hide First, Lawful;
    BlanksAreSpace(u);
    if g == [] {
      assert g + rest == rest;
    } else {
      assert (g + rest)[1..] == g[1..] + rest;
      BlankLines(u, g[1..], rest, begun || g[0] == '\n');
    }
  }

  lemma {:induction false} TokenLine(u: Runes, t: Token, rest: string, begun: bool)
    requires Proper(u, t) && Tokens(u, t.s + rest) != [] && Tokens(u, t.s + rest)[0] == t
    ensures Lines(u, t.s + rest, begun) == [begun] + Lines(u, rest, false)
  {
    hide First;
    var w := t.s + rest;
    assert w[0] == t.s[0];
    var (kind, n) := First(u, w);
    assert Token(w[..n], kind) == t;
    FirstLine(u, t, rest, begun);
  }

  /** Tokens that were laid out stand on the lines they were put on. */
  lemma {:induction false} PiecesLines(u: Runes, e: Edge, ps: seq<Piece>, begun: bool)
    requires Lawful(u) && Laid(e, ps) && Readable(u, Written(ps)) && Ends(ps) && NoGlue(Written(ps))
    ensures Lines(u, Flat(ps), begun) == Marks(ps, begun)
    decreases |ps|
  {
    hide Lawful, Tokens, Glued, Touches, Proper, Closed, NoGlue, Blank, Ends, Readable, Lines;
    if ps == [] {
      NoLines(u, begun);
    } else {
      var rest := ps[1..];
      PiecesReadBack(u, e, ps);
      if ps[0].Gap? {
        GapLines(u, e, ps[0], Flat(rest), begun);
        EndsTail(ps);
        PiecesLines(u, Past(e, ps[0]), rest, begun || '\n' in ps[0].g);
      } else {
        var t := ps[0].t;
        assert Written(ps) == [t] + Written(rest);
        ReadableCons(u, t, Written(rest));
        NoGlueCons(t, Written(rest));
        TokenLine(u, t, Flat(rest), begun);
        if Written(rest) == [] {
          LastLines(u, Past(e, ps[0]), rest);
        } else {
          EndsTail(ps);
          PiecesLines(u, Past(e, ps[0]), rest, false);
        }
      }
    }
  }

  lemma {:induction false} NoLines(u: Runes, begun: bool)
    ensures Lines(u, Flat([]), begun) == []
  {
  }

  lemma {:induction false} GapLines(u: Runes, e: Edge, p: Piece, rest: string, begun: bool)
    requires Lawful(u) && p.Gap? && Fits(e, p)
    ensures Lines(u, p.g + rest, begun) == Lines(u, rest, begun || '\n' in p.g)
  {
    BlankLines(u, p.g, rest, begun);
  }

  lemma {:induction false} LastLines(u: Runes, e: Edge, ps: seq<Piece>)
    requires Lawful(u) && Laid(e, ps) && Written(ps) == []
    ensures Lines(u, Flat(ps), false) == [] == Marks(ps, false)
  {
    hide Lawful, Lines, Laid;
    GapsAreBlank(e, ps);
    BlanksSkipped(u, Flat(ps), []);
    assert Flat(ps) + [] == Flat(ps);
    NoTokens(u);
    assert |Lines(u, Flat(ps), false)| == |Tokens(u, Flat(ps))|;
    assert |Marks(ps, false)| == 0;
  }

  lemma {:induction false} MarksFirst(ps: seq<Piece>, a: bool, b: bool)
    requires ps == [] || ps[0].Tok?
    ensures |Marks(ps, a)| == |Marks(ps, b)| && (ps != [] ==> Marks(ps, a)[1..] == Marks(ps, b)[1..])
  {
  }

  /** Whitespace at the start is the line of the first token only. */
  lemma {:induction false} MarksOfLead(ps: seq<Piece>, a: bool, b: bool)
    ensures var m, n := Marks(ps, a), Marks(DropLead(ps), b); |m| == |n| && (m != [] ==> m[1..] == n[1..])
    decreases |ps|
  {
    if ps != [] && ps[0].Gap? {
      MarksOfLead(ps[1..], a || '\n' in ps[0].g, b);
    } else {
      MarksFirst(ps, a, b);
    }
  }

  lemma {:induction false} MarksOfChop(u: Runes, ps: seq<Piece>, b: bool)
    ensures Marks(Chop(u, ps), b) == Marks(ps, b)
    decreases |ps|
  {
    hide Marks, Pending, Written, Chopped;
    if ps != [] {
      var n := |ps| - 1;
      assert ps == ps[..n] + [ps[n]];
      MarksSnoc(ps[..n], ps[n], b);
      if ps[n].Gap? {
        MarksOfChop(u, ps[..n], b);
        assert Marks(ps[..n], b) + [] == Marks(ps[..n], b);
      } else {
        MarksSnoc(ps[..n], Tok(Chopped(u, ps[n].t)), b);
      }
    }
  }

  /** The formatted statement has the tokens of the statement, an open quote at its end
      trimmed, on the lines the rule gives. */
  lemma {:induction false} FormatLines(u: Runes, q: string)
    requires Lawful(u) && NoGlue(Tokens(u, q))
    ensures var ts, text := Tokens(u, q), Format(u, q);
            && Tokens(u, text) == ChopLast(u, ts) && |Lines(u, text, false)| == |ts|
            && (ts != [] ==> Lines(u, text, false)[1..] == Breaks(u, ts)[1..])
  {
    hide Lawful, Tokens, All, Laid, Flat, Written, NoGlue, DropLead, Chop, Readable, Chopped, Lines, Marks, Breaks;
    var ts := Tokens(u, q);
    var out := All(u, ts, START, 0).out;
    var ps := Chop(u, DropLead(out));
    TokensAreReadable(u, q);
    FormatPieces(u, ts);
    ChopLastReadable(u, ts);
    FormatReads(u, q);
    TrimNothing(u);
    PiecesLines(u, OPEN_EDGE, ps, false);
    MarksOfChop(u, DropLead(out), false);
    MarksOfLead(out, false, false);
    ReadableIsFine(u, ts);
    SqlLayout.LinesByTheRule(u, ts);
    assert |ChopLast(u, ts)| == |ts|;
  }

  // ----- any number of comments -----

  /** Nothing is dropped before the first token. */
  lemma {:induction false} FirstLineFree(ts: seq<Token>, a: seq<bool>, b: seq<bool>)
    requires |ts| == |a| == |b| && (ts != [] ==> a[1..] == b[1..])
    ensures Survivors(ts, a, false) == Survivors(ts, b, false) && CutAt(ts, a, false) == CutAt(ts, b, false)
  {
    hide Opens, Head;
  }

  lemma {:induction false} FirstIsNotCut(ts: seq<Token>, lines: seq<bool>)
    requires |ts| == |lines| && ts != []
    ensures CutAt(ts, lines, false) > 0
  {
  }

  /** A token runs past the line of a comment it is in. */
  predicate Cuts(ts: seq<Token>, lines: seq<bool>)
    requires |ts| == |lines|
  {
    CutAt(ts, lines, false) < |ts|
  }

  /** What a reader that skips line comments finds in the formatted statement: what the
      comments leave, had the statement the lines of the layout. */
  lemma {:induction false} FormattedRead(u: Runes, q: string)
    requires Lawful(u) && NoGlue(Tokens(u, q))
    ensures var ts := Tokens(u, q);
            var cs, lines := ChopLast(u, ts), Breaks(u, ts);
            var j := CutAt(cs, lines, false);
            && (j == |ts| ==> Read(u, Format(u, q)) == Survivors(cs, lines, false))
            && (j < |ts| ==> && j < |Tokens(u, Format(u, q))|
                             && Read(u, Format(u, q)) == Survivors(cs[..j], lines[..j], false)
                                + Read(u, ToLineEnd(cs[j].s) + After(u, Format(u, q), j)))
  {
    hide Lawful, Tokens, Format, NoGlue, ChopLast, Lines, Breaks, Survivors, CutAt, Read, After, ToLineEnd;
    var cs, text := ChopLast(u, Tokens(u, q)), Format(u, q);
    var a, b := Lines(u, text, false), Breaks(u, Tokens(u, q));
    FormatLines(u, q);
    ReadByLines(u, text);
    FirstLineFree(cs, a, b);
    var j := CutAt(cs, b, false);
    if 0 < j < |cs| {
      assert a[..j][1..] == a[1..][..j - 1] == b[1..][..j - 1] == b[..j][1..];
      FirstLineFree(cs[..j], a[..j], b[..j]);
    } else if j == 0 && cs != [] {
      FirstIsNotCut(cs, b);
    }
  }

  /** A statement with any number of comments reads the same after formatting if and only if
      its comments leave the same tokens on the lines of the layout as on its own. */
  lemma {:induction false} CommentsReadTheSame(u: Runes, q: string)
    requires Lawful(u) && NoGlue(Tokens(u, q))
    requires !Cuts(Tokens(u, q), Lines(u, q, false)) && !Cuts(ChopLast(u, Tokens(u, q)), Breaks(u, Tokens(u, q)))
    ensures var ts := Tokens(u, q);
            Read(u, Format(u, q)) == Read(u, q)
            <==> Survivors(ChopLast(u, ts), Breaks(u, ts), false) == Survivors(ts, Lines(u, q, false), false)
  {
    hide Lawful, Tokens, Format, NoGlue, ChopLast, Lines, Breaks, Survivors, CutAt, Read;
    FormattedRead(u, q);
    ReadByLines(u, q);
  }
}
