/**
  Tokens that were laid out, read back: they are the same except where the layout glues a
  cast to another operator.
 */
module SqlFormatRoundTrip {
  import opened SqlTokens
  import opened SqlFormat
  import opened SqlFormatLaws
  import opened SqlFormatTokens

  // ----- tokens as the tokenizer makes them -----

  /** Reading the token's text gives the token. */
  predicate Proper(u: Runes, t: Token) {
    t.s != [] && !u.isSpace(t.s[0]) && First(u, t.s) == (t.kind, |t.s|)
  }

  /** Its quote, if it has one, is closed. */
  predicate Closed(t: Token) {
    t.s != [] && IsQuote(t.s[0]) ==> QuoteCloses(t.s[0], t.s[1..])
  }

  predicate Whole(u: Runes, t: Token) {
    Proper(u, t) && Closed(t)
  }

  /** Only the last token can have a quote that is never closed. */
  ghost predicate Readable(u: Runes, ts: seq<Token>) {
    forall i | 0 <= i < |ts| :: Proper(u, ts[i]) && (i < |ts| - 1 ==> Closed(ts[i]))
  }

  predicate LastClosed(ts: seq<Token>) {
    ts != [] ==> Closed(ts[|ts| - 1])
  }

  lemma {:induction false} WordRunOfPrefix(u: Runes, rs: string)
    ensures WordRun(u, rs[..WordRun(u, rs)]) == WordRun(u, rs)
  {
    var n := WordRun(u, rs);
    if n > 0 {
      assert rs[..n][1..] == rs[1..][..n - 1];
      WordRunOfPrefix(u, rs[1..]);
    }
  }

  lemma {:induction false} OperatorRunOfPrefix(rs: string)
    ensures OperatorRun(rs[..OperatorRun(rs)]) == OperatorRun(rs)
  {
    hide IsOperator;
    var n := OperatorRun(rs);
    if n > 0 {
      assert rs[..n][1..] == rs[1..][..n - 1];
      OperatorRunOfPrefix(rs[1..]);
    }
  }

  lemma {:induction false} QuoteRunOfPrefix(q: char, rs: string)
    ensures QuoteRun(q, rs[..QuoteRun(q, rs)]) == QuoteRun(q, rs)
    decreases |rs|
  {
    var n := QuoteRun(q, rs);
    if rs != [] {
      var w := rs[..n];
      if rs[0] == q {
        if q == '\'' && |rs| > 1 && rs[1] == '\'' {
          assert w[2..] == rs[2..][..n - 2];
          QuoteRunOfPrefix(q, rs[2..]);
        }
      } else {
        assert w[1..] == rs[1..][..n - 1];
        QuoteRunOfPrefix(q, rs[1..]);
      }
    }
  }

  lemma {:induction false} FirstIsProper(u: Runes, rs: string)
    requires rs != [] && !u.isSpace(rs[0])
    ensures var (kind, n) := First(u, rs); Proper(u, Token(rs[..n], kind))
  {
    hide IsOperator;
    var n := First(u, rs).1;
    assert rs[..n][1..] == rs[1..][..n - 1];
    QuoteRunOfPrefix(rs[0], rs[1..]);
    WordRunOfPrefix(u, rs);
    OperatorRunOfPrefix(rs[1..]);
  }

  /** A quote that is not closed runs to the end of the text. */
  lemma {:induction false} OpenQuoteRuns(q: char, rs: string)
    ensures !QuoteCloses(q, rs) ==> QuoteRun(q, rs) == |rs|
    ensures QuoteCloses(q, rs) ==> QuoteCloses(q, rs[..QuoteRun(q, rs)])
    decreases |rs|
  {
    if rs != [] {
      var n := QuoteRun(q, rs);
      var w := rs[..n];
      if rs[0] == q {
        if q == '\'' && |rs| > 1 && rs[1] == '\'' {
          OpenQuoteRuns(q, rs[2..]);
          assert w[2..] == rs[2..][..n - 2];
        }
      } else {
        OpenQuoteRuns(q, rs[1..]);
        assert w[1..] == rs[1..][..n - 1];
      }
    }
  }

  lemma {:induction false} FirstIsClosed(u: Runes, rs: string)
    requires rs != []
    ensures var (kind, n) := First(u, rs); n < |rs| ==> Closed(Token(rs[..n], kind))
  {
    hide IsOperator;
    var n := First(u, rs).1;
    if IsQuote(rs[0]) {
      OpenQuoteRuns(rs[0], rs[1..]);
      assert rs[..n][1..] == rs[1..][..n - 1];
    }
  }

  /** What the tokenizer makes is readable. */
  lemma {:induction false} TokensAreReadable(u: Runes, rs: string)
    ensures Readable(u, Tokens(u, rs))
    decreases |rs|
  {
    hide First, Proper, Closed;
    if rs != [] {
      if u.isSpace(rs[0]) {
        TokensAreReadable(u, rs[1..]);
      } else {
        var (kind, n) := First(u, rs);
        var t, rest := Token(rs[..n], kind), Tokens(u, rs[n..]);
        FirstIsProper(u, rs);
        FirstIsClosed(u, rs);
        TokensAreReadable(u, rs[n..]);
        NoTokens(u);
        ReadableCons(u, t, rest);
      }
    }
  }

  lemma {:induction false} NoTokens(u: Runes)
    ensures Tokens(u, "") == []
  {
  }

  lemma {:induction false} ReadableCons(u: Runes, t: Token, ts: seq<Token>)
    ensures Readable(u, [t] + ts) <==> Proper(u, t) && (ts != [] ==> Closed(t)) && Readable(u, ts)
  {
    hide Proper, Closed;
    var all := [t] + ts;
    assert forall i | 0 <= i < |ts| :: all[i + 1] == ts[i];
    if Readable(u, all) {
      assert Proper(u, all[0]);
      forall i | 0 <= i < |ts|
        ensures Proper(u, ts[i]) && (i < |ts| - 1 ==> Closed(ts[i]))
      {
        assert Proper(u, all[i + 1]);
      }
    }
  }

  // ----- a token read back from where it was written -----

  /** What follows does not run into the token. */
  predicate Bounded(u: Runes, t: Token, rest: string) {
    rest == [] || match t.kind
      case Word => !IsWord(u, rest[0])
      case Operator => !(Runs(t) && IsOperator(rest[0]))
      case Literal => rest[0] != '\''
      case _ => true
  }

  lemma {:induction false} WordRunConcat(u: Runes, s: string, rest: string)
    requires WordRun(u, s) == |s| && (rest == [] || !IsWord(u, rest[0]))
    ensures WordRun(u, s + rest) == |s|
  {
    if s == [] {
      assert s + rest == rest;
    } else {
      assert (s + rest)[1..] == s[1..] + rest;
      WordRunConcat(u, s[1..], rest);
    }
  }

  lemma {:induction false} OperatorRunConcat(s: string, rest: string)
    requires OperatorRun(s) == |s|
    ensures OperatorRun(s + rest) == |s| + OperatorRun(rest)
  {
    hide IsOperator;
    if s == [] {
      assert s + rest == rest;
    } else {
      assert (s + rest)[1..] == s[1..] + rest;
      OperatorRunConcat(s[1..], rest);
    }
  }

  lemma {:induction false} QuoteRunConcat(q: char, s: string, rest: string)
    requires QuoteCloses(q, s) && QuoteRun(q, s) == |s| && (rest == [] || q != '\'' || rest[0] != '\'')
    ensures QuoteRun(q, s + rest) == |s|
    decreases |s|
  {
    var w := s + rest;
    if s[0] == q {
      if q == '\'' && |s| > 1 && s[1] == '\'' {
        assert w[2..] == s[2..] + rest;
        QuoteRunConcat(q, s[2..], rest);
      }
    } else {
      assert w[1..] == s[1..] + rest;
      QuoteRunConcat(q, s[1..], rest);
    }
  }

  lemma {:induction false} FirstOfConcat(u: Runes, t: Token, rest: string)
    requires Whole(u, t) && Bounded(u, t, rest)
    ensures First(u, t.s + rest) == (t.kind, |t.s|)
  {
    hide IsOperator;
    var w := t.s + rest;
    assert w[0] == t.s[0] && w[1..] == t.s[1..] + rest;
    if IsQuote(t.s[0]) {
      QuoteRunConcat(t.s[0], t.s[1..], rest);
    } else if t.kind == Kind.Word {
      WordRunConcat(u, t.s, rest);
    } else if Runs(t) {
      OperatorRunConcat(t.s[1..], rest);
    }
  }

  lemma {:induction false} ReadsBack(u: Runes, t: Token, rest: string)
    requires Whole(u, t) && Bounded(u, t, rest)
    ensures Tokens(u, t.s + rest) == [t] + Tokens(u, rest)
  {
    hide First, Bounded, Closed;
    FirstOfConcat(u, t, rest);
    var w := t.s + rest;
    assert w[..|t.s|] == t.s && w[|t.s|..] == rest;
  }

  /** Two operators with nothing between are read as one. */
  lemma {:induction false} RunsTogether(u: Runes, t: Token, rest: string)
    requires Proper(u, t) && Runs(t) && rest != [] && IsOperator(rest[0])
    ensures Tokens(u, t.s + rest) != [] && Tokens(u, t.s + rest)[0] != t
  {
    hide IsOperator;
    var w := t.s + rest;
    assert w[1..] == t.s[1..] + rest;
    OperatorRunConcat(t.s[1..], rest);
    assert First(u, w).1 > |t.s|;
  }

  lemma {:induction false} BlanksSkipped(u: Runes, g: string, rest: string)
    requires Lawful(u) && forall i | 0 <= i < |g| :: g[i] == ' ' || g[i] == '\n'
    ensures Tokens(u, g + rest) == Tokens(u, rest)
    decreases |g|
  {
    hide First;
    if g == [] {
      assert g + rest == rest;
    } else {
      assert (g + rest)[1..] == g[1..] + rest;
      BlanksSkipped(u, g[1..], rest);
    }
  }

  // ----- what starts a token -----

  lemma {:induction false} OperatorRunes(c: char)
    requires IsOperator(c)
    ensures IsMark(c) && !IsQuote(c) && c != '(' && c != ')' && c != ',' && c != '_' && c != '$' && c != '.'
  {
  }

  lemma {:induction false} StartOf(u: Runes, t: Token)
    requires Lawful(u) && Proper(u, t)
    ensures t.kind == Open ==> t.s[0] == '('
    ensures t.kind == Close ==> t.s[0] == ')'
    ensures t.kind == Comma ==> t.s[0] == ','
    ensures IsOperator(t.s[0]) ==> Runs(t)
    ensures t.kind == Operator ==> !IsQuote(t.s[0])
    ensures t.kind == Kind.Word ==> IsWord(u, t.s[0])
  {
    hide IsOperator, Lawful;
    if IsOperator(t.s[0]) {
      OperatorRunes(t.s[0]);
      MarksAreNoWords(u, t.s[0]);
    }
  }

  lemma {:induction false} TouchingIsBounded(u: Runes, t: Token, q: Token, rest: string)
    requires Lawful(u) && Proper(u, t) && Proper(u, q) && Touches(t, q) && !Glued(t, q)
    ensures Bounded(u, t, q.s + rest)
  {
    hide Lawful, First, IsOperator;
    StartOf(u, t);
    StartOf(u, q);
    MarksAreNoWords(u, (q.s + rest)[0]);
    assert (q.s + rest)[0] == q.s[0];
    Colon(u);
  }

  lemma {:induction false} Colon(u: Runes)
    requires Lawful(u)
    ensures IsOperator(':') && !IsOperator('(') && !IsOperator(')') && !IsOperator(',')
  {
  }

  lemma {:induction false} MarksAreNoWords(u: Runes, c: char)
    requires Lawful(u)
    ensures IsMark(c) || u.isSpace(c) ==> !IsWord(u, c)
    ensures u.isSpace(c) ==> !IsMark(c)
  {
  }

  lemma {:induction false} BlankIsBounded(u: Runes, t: Token, g: string, rest: string)
    requires Lawful(u) && Blank(g)
    ensures Bounded(u, t, g + rest)
  {
    hide Lawful, IsOperator;
    var c := (g + rest)[0];
    assert c == g[0];
    BlanksAreSpace(u);
    MarksAreNoWords(u, c);
  }

  lemma {:induction false} BlanksAreSpace(u: Runes)
    requires Lawful(u)
    ensures u.isSpace(' ') && u.isSpace('\n')
  {
  }

  // ----- the pieces read back -----

  /** No cast beside another operator. */
  ghost predicate NoGlue(ts: seq<Token>) {
    forall i | 0 <= i < |ts| - 1 :: !Glued(ts[i], ts[i + 1])
  }

  lemma {:induction false} NoGlueCons(t: Token, ts: seq<Token>)
    ensures NoGlue([t] + ts) <==> NoGlue(ts) && (ts != [] ==> !Glued(t, ts[0]))
  {
    var all := [t] + ts;
    assert forall i | 0 < i < |all| :: all[i] == ts[i - 1];
    if NoGlue(all) {
      forall i | 0 <= i < |ts| - 1
        ensures !Glued(ts[i], ts[i + 1])
      {
        assert !Glued(all[i + 1], all[i + 2]);
      }
      if ts != [] {
        assert !Glued(all[0], all[1]);
      }
    }
  }

  /** After whitespace, the next token is not one that would have been glued. */
  lemma {:induction false} NextAfterGap(e: Edge, ps: seq<Piece>)
    requires Laid(e, ps) && e.gap && e.last.Some? && Written(ps) != []
    ensures !Glued(e.last.value, Written(ps)[0])
    decreases |ps|
  {
    hide Glued, Touches, Blank;
    if ps[0].Gap? {
      NextAfterGap(Past(e, ps[0]), ps[1..]);
    }
  }

  /** The pieces end with a token, or all quotes are closed: no whitespace is read into an
      open quote. */
  predicate Ends(ps: seq<Piece>) {
    LastClosed(Written(ps)) || (ps != [] && ps[|ps| - 1].Tok?)
  }

  lemma {:induction false} EndsTail(ps: seq<Piece>)
    requires ps != [] && Ends(ps) && (ps[0].Gap? || Written(ps[1..]) != [])
    ensures Ends(ps[1..])
  {
    if Written(ps[1..]) != [] {
      var n := |Written(ps)|;
      assert Written(ps)[n - 1] == Written(ps[1..])[|Written(ps[1..])| - 1];
    }
  }

  /** Reading what was written gives what was written, exactly when no cast stands beside
      another operator; otherwise a token before the last is read differently. */
  lemma {:induction false} PiecesReadBack(u: Runes, e: Edge, ps: seq<Piece>)
    requires Lawful(u) && Laid(e, ps) && Readable(u, Written(ps)) && Ends(ps)
    ensures NoGlue(Written(ps)) ==> Tokens(u, Flat(ps)) == Written(ps)
    ensures !NoGlue(Written(ps)) ==> |Written(ps)| > 1 && !(Written(ps)[..|Written(ps)| - 1] <= Tokens(u, Flat(ps)))
    decreases |ps|
  {
    hide Lawful, Tokens, Glued, Touches, Proper, Closed, NoGlue, Blank, Ends, Readable;
    if ps == [] {
      NothingToRead(u);
    } else {
      var rest := ps[1..];
      var after := Past(e, ps[0]);
      if ps[0].Gap? {
        BlankGap(u, ps[0].g, Flat(rest));
        EndsTail(ps);
        PiecesReadBack(u, after, rest);
      } else {
        var t := ps[0].t;
        assert Written(ps) == [t] + Written(rest);
        ReadableCons(u, t, Written(rest));
        NoGlueCons(t, Written(rest));
        if Written(rest) == [] {
          LastReadBack(u, t, ps);
          NoGlueNothing();
        } else {
          EndsTail(ps);
          PiecesReadBack(u, after, rest);
          TokenReadBack(u, t, rest);
          HeadReads(t, Written(rest), Tokens(u, Flat(ps)), Tokens(u, Flat(rest)));
        }
      }
    }
  }

  lemma {:induction false} NoGlueNothing()
    ensures NoGlue([])
  {
  }

  lemma {:induction false} HeadReads(t: Token, w: seq<Token>, r: seq<Token>, r': seq<Token>)
    requires w != []
    ensures r == [t] + r' && !(w[..|w| - 1] <= r') ==> !(([t] + w)[..|w|] <= r)
    ensures (r == [] || r[0] != t) ==> !(([t] + w)[..|w|] <= r)
  {
    var p := ([t] + w)[..|w|];
    assert p == [t] + w[..|w| - 1];
    if r == [t] + r' && p <= r {
      assert r[..|p|] == p;
      assert r'[..|w| - 1] == r[..|p|][1..] == w[..|w| - 1];
    }
  }

  lemma {:induction false} NothingToRead(u: Runes)
    ensures Tokens(u, Flat([])) == Written([]) && NoGlue(Written([]))
  {
  }

  lemma {:induction false} BlankGap(u: Runes, g: string, text: string)
    requires Lawful(u) && Blank(g)
    ensures Tokens(u, g + text) == Tokens(u, text)
  {
    BlanksSkipped(u, g, text);
  }

  lemma {:induction false} ReadsAlone(u: Runes, t: Token)
    requires Proper(u, t)
    ensures Tokens(u, t.s) == [t]
  {
    hide First;
    NoTokens(u);
    assert t.s[..|t.s|] == t.s && t.s[|t.s|..] == [];
  }

  lemma {:induction false} GapsAreBlank(e: Edge, ps: seq<Piece>)
    requires Laid(e, ps) && Written(ps) == []
    ensures forall i | 0 <= i < |Flat(ps)| :: Flat(ps)[i] == ' ' || Flat(ps)[i] == '\n'
    ensures ps != [] ==> ps[|ps| - 1].Gap? && Flat(ps) != []
    decreases |ps|
  {
    hide Glued, Touches;
    if ps != [] {
      assert ps[0].Gap?;
      GapsAreBlank(Past(e, ps[0]), ps[1..]);
    }
  }

  /** The last token, with whitespace after it only when it is closed. */
  lemma {:induction false} LastReadBack(u: Runes, t: Token, ps: seq<Piece>)
    requires Lawful(u) && Proper(u, t) && ps != [] && ps[0] == Tok(t) && Written(ps[1..]) == [] && Ends(ps)
    requires Laid(Edge(Some(t), false), ps[1..])
    ensures Tokens(u, Flat(ps)) == [t]
  {
    hide Lawful, Tokens, Proper, Closed, Bounded, Laid;
    var rest := ps[1..];
    GapsAreBlank(Edge(Some(t), false), rest);
    if rest == [] {
      assert t.s + Flat(rest) == t.s;
      ReadsAlone(u, t);
    } else {
      assert Written(ps) == [t] + Written(rest) == [t];
      BlankIsBounded(u, t, Flat(rest), []);
      assert Flat(rest) + [] == Flat(rest);
      ReadsBack(u, t, Flat(rest));
      BlanksSkipped(u, Flat(rest), []);
      NoTokens(u);
    }
  }

  /** One token and what comes after it. */
  lemma {:induction false} TokenReadBack(u: Runes, t: Token, rest: seq<Piece>)
    requires Lawful(u) && Whole(u, t) && Laid(Edge(Some(t), false), rest) && Readable(u, Written(rest))
    requires Written(rest) != []
    ensures Glued(t, Written(rest)[0]) ==> Tokens(u, t.s + Flat(rest)) != [] && Tokens(u, t.s + Flat(rest))[0] != t
    ensures !Glued(t, Written(rest)[0]) ==> Tokens(u, t.s + Flat(rest)) == [t] + Tokens(u, Flat(rest))
  {
    hide Lawful, Tokens, Glued, Touches, Proper, Closed, Blank, Bounded;
    var text := Flat(rest);
    if rest[0].Gap? {
      BlankIsBounded(u, t, rest[0].g, Flat(rest[1..]));
      NextAfterGap(Past(Edge(Some(t), false), rest[0]), rest[1..]);
      ReadsBack(u, t, text);
    } else {
      var q := rest[0].t;
      assert Written(rest)[0] == q;
      if Glued(t, q) {
        GluedRunsOn(u, t, q, Flat(rest[1..]));
      } else {
        TouchingIsBounded(u, t, q, Flat(rest[1..]));
        ReadsBack(u, t, text);
      }
    }
  }

  lemma {:induction false} GluedRunsOn(u: Runes, t: Token, q: Token, rest: string)
    requires Proper(u, t) && Glued(t, q)
    ensures Tokens(u, t.s + (q.s + rest)) != [] && Tokens(u, t.s + (q.s + rest))[0] != t
  {
    hide Tokens, Proper, IsOperator;
    assert (q.s + rest)[0] == q.s[0];
    RunsTogether(u, t, q.s + rest);
  }
}
