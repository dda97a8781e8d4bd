/**
  Quotes in comments. The formatter takes an apostrophe in a comment for the start of a
  literal, which then runs past the comment's line, and takes what stands in quotes after it
  for code. The reader goes on inside that token.
 */
module SqlCommentCuts {
  import opened SqlTokens
  import opened SqlFormat
  import opened SqlFormatTokens
  import opened SqlFormatRoundTrip
  import opened SqlFormatText
  import opened SqlBreaks
  import opened SqlComments
  import opened SqlLines
  import opened SqlCommentLaws
  import opened SqlCommentDrops

  // ----- where the reader goes on -----

  lemma {:induction false} SameDrops(ts: seq<Token>, a: seq<bool>, b: seq<bool>, n: nat, dropping: bool)
    requires |ts| == |a| == |b| && n <= |ts| && Drops(ts, a, dropping)[..n] == Drops(ts, b, dropping)[..n]
    ensures Survivors(ts[..n], a[..n], dropping) == Survivors(ts[..n], b[..n], dropping)
    ensures CutAt(ts, a, dropping) < n ==> CutAt(ts, b, dropping) == CutAt(ts, a, dropping)
    decreases n
  {
    hide Opens, Head;
    if n > 0 {
      var x, y := dropping && !a[0], dropping && !b[0];
      var ra, rb := Drops(ts[1..], a[1..], x || Opens(ts[0])), Drops(ts[1..], b[1..], y || Opens(ts[0]));
      var da, db := Drops(ts, a, dropping), Drops(ts, b, dropping);
      assert da == [x] + ra && db == [y] + rb;
      assert da[..n][0] == x && db[..n][0] == y;
      assert ra[..n - 1] == da[..n][1..] && rb[..n - 1] == db[..n][1..];
      SameDrops(ts[1..], a[1..], b[1..], n - 1, x || Opens(ts[0]));
      assert ts[..n][1..] == ts[1..][..n - 1] && a[..n][1..] == a[1..][..n - 1] && b[..n][1..] == b[1..][..n - 1];
      KeptHead(ts[..n], a[..n], dropping);
      KeptHead(ts[..n], b[..n], dropping);
    }
  }

  /** Where the first cut is depends on the tokens up to it. */
  lemma {:induction false} CutEarly(ts: seq<Token>, cs: seq<Token>, lines: seq<bool>, dropping: bool)
    requires |ts| == |cs| == |lines|
    requires var j := CutAt(ts, lines, dropping); j < |ts| && cs[..j + 1] == ts[..j + 1]
    ensures CutAt(cs, lines, dropping) == CutAt(ts, lines, dropping)
    decreases |ts|
  {
    hide Opens;
    var j := CutAt(ts, lines, dropping);
    assert cs[0] == cs[..j + 1][0] == ts[..j + 1][0] == ts[0];
    if j > 0 {
      assert cs[1..][..j] == cs[..j + 1][1..] == ts[..j + 1][1..] == ts[1..][..j];
      CutEarly(ts[1..], cs[1..], lines[1..], if dropping && !lines[0] then true else Opens(ts[0]));
    }
  }

  /** The tokens up to the cut are dropped in the layout where they are in the statement. */
  ghost predicate CutAlike(u: Runes, q: string, j: nat) {
    var ts, lines := Tokens(u, q), Lines(u, q, false);
    && CutAt(ts, lines, false) == j < |ts| && (j < |ts| - 1 || !LosesBlanks(u, ts))
    && Drops(ts, lines, false)[..j + 1] == Drops(ts, Breaks(u, ts), false)[..j + 1]
  }

  /** A quote in a comment that runs past its line: the formatted statement reads the same if
      and only if the rest of the quote reads the same, followed by the layout of what comes
      after it as by the text of it. */
  lemma {:induction false} CutReadsTheSame(u: Runes, q: string, j: nat)
    requires Lawful(u) && NoGlue(Tokens(u, q)) && CutAlike(u, q, j)
    ensures var ts, text := Tokens(u, q), Format(u, q);
            && |Tokens(u, text)| == |ts|
            && var line := ToLineEnd(ts[j].s);
               (Read(u, text) == Read(u, q) <==> Read(u, line + After(u, text, j)) == Read(u, line + After(u, q, j)))
  {
    hide Lawful, Tokens, Format, NoGlue, ChopLast, Lines, Breaks, Survivors, CutAt, Read, Drops, After, ToLineEnd,
         Readable,
         LosesBlanks;
    var ts, lines, text := Tokens(u, q), Lines(u, q, false), Format(u, q);
    var cs, breaks := ChopLast(u, ts), Breaks(u, ts);
    TokensAreReadable(u, q);
    FormatLines(u, q);
    FormattedRead(u, q);
    ReadByLines(u, q);
    SameDrops(ts, lines, breaks, j + 1, false);
    DropsPrefix(ts, lines, breaks, j);
    SameDrops(ts, lines, breaks, j, false);
    ChoppedPrefix(u, ts, j);
    CutEarly(ts, cs, breaks, false);
    assert cs[..j] == cs[..j + 1][..j] == ts[..j + 1][..j] == ts[..j] && cs[j] == cs[..j + 1][j] == ts[..j + 1][j];
    var left := Survivors(ts[..j], lines[..j], false);
    SameHeads(left, Read(u, ToLineEnd(ts[j].s) + After(u, text, j)), Read(u, ToLineEnd(ts[j].s) + After(u, q, j)));
  }

  lemma {:induction false} DropsPrefix(ts: seq<Token>, a: seq<bool>, b: seq<bool>, j: nat)
    requires |ts| == |a| == |b| && j < |ts| && Drops(ts, a, false)[..j + 1] == Drops(ts, b, false)[..j + 1]
    ensures Drops(ts, a, false)[..j] == Drops(ts, b, false)[..j]
  {
    hide Drops;
    assert Drops(ts, a, false)[..j] == Drops(ts, a, false)[..j + 1][..j];
    assert Drops(ts, b, false)[..j] == Drops(ts, b, false)[..j + 1][..j];
  }

  lemma {:induction false} SameHeads(p: seq<Token>, a: seq<Token>, b: seq<Token>)
    ensures p + a == p + b <==> a == b
  {
    if p + a == p + b {
      assert (p + a)[|p|..] == a && (p + b)[|p|..] == b;
    }
  }

  lemma {:induction false} ChoppedPrefix(u: Runes, ts: seq<Token>, j: nat)
    requires Lawful(u) && Readable(u, ts) && j < |ts| && (j < |ts| - 1 || !LosesBlanks(u, ts))
    ensures ChopLast(u, ts)[..j + 1] == ts[..j + 1]
  {
    hide Lawful, Readable, LosesBlanks, Chopped;
    ChopLastReadable(u, ts);
  }

  // ----- a quote that is never closed -----

  /** Nothing follows a quote that is never closed. */
  lemma {:induction false} OpenEndsText(u: Runes, rs: string)
    requires Lawful(u) && Tokens(u, rs) != [] && !Closed(Tokens(u, rs)[|Tokens(u, rs)| - 1])
    ensures After(u, rs, |Tokens(u, rs)| - 1) == []
    decreases |rs|
  {
    hide Lawful, First, Closed;
    if u.isSpace(rs[0]) {
      OpenEndsText(u, rs[1..]);
    } else {
      var (kind, n) := First(u, rs);
      var rest := Tokens(u, rs[n..]);
      assert Tokens(u, rs) == [Token(rs[..n], kind)] + rest;
      FirstIsClosed(u, rs);
      if rest != [] {
        assert Tokens(u, rs)[|rest|] == rest[|rest| - 1];
        OpenEndsText(u, rs[n..]);
      }
    }
  }

  /** What is read of a text, from the next line on when in a comment. */
  function Rest(u: Runes, x: string, dropping: bool): seq<Token> {
    Read(u, if dropping then ToLineEnd(x) else x)
  }

  lemma {:induction false} RestOfSpace(u: Runes, c: char, x: string, dropping: bool)
    requires Lawful(u) && u.isSpace(c)
    ensures Rest(u, [c] + x, dropping) == Rest(u, x, dropping && c != '\n')
  {
    hide Lawful, Tokens, Uncommented, ToLineEnd;
    SpaceRead(u, c, x);
  }

  lemma {:induction false} RestOfSpaces(u: Runes, g: string, dropping: bool)
    requires Lawful(u) && forall i | 0 <= i < |g| :: u.isSpace(g[i])
    ensures Rest(u, g, dropping) == []
    decreases |g|
  {
    hide Lawful, Rest;
    if g == [] {
      RestOfNothing(u, dropping);
    } else {
      assert g == [g[0]] + g[1..];
      RestOfSpace(u, g[0], g[1..], dropping);
      RestOfSpaces(u, g[1..], dropping && g[0] != '\n');
    }
  }

  lemma {:induction false} RestOfNothing(u: Runes, dropping: bool)
    ensures Rest(u, [], dropping) == []
  {
  }

  /** The first token of a text, and the rest. */
  lemma {:induction false} RestOfToken(u: Runes, t: Token, x: string, dropping: bool)
    requires Lawful(u) && t.s != [] && !u.isSpace(t.s[0]) && First(u, t.s + x) == (t.kind, |t.s|)
    ensures Rest(u, t.s + x, dropping) ==
            if dropping then (if '\n' in t.s then Read(u, ToLineEnd(t.s) + x) else Rest(u, x, true))
            else Kept(t) + Rest(u, x, Opens(t))
  {
    hide Lawful, Tokens, Uncommented, First, Opens, Head, ToLineEnd;
    var w := t.s + x;
    assert w[..|t.s|] == t.s && w[|t.s|..] == x;
    LineEndAfter(t.s, x);
    FirstRead(u, w);
  }

  lemma {:induction false} TokenThenSpace(u: Runes, t: Token, x: string, g: string)
    requires Lawful(u) && t.s != [] && !u.isSpace(t.s[0]) && First(u, t.s + x) == (t.kind, |t.s|) && Closed(t)
    requires g != [] && u.isSpace(g[0])
    ensures First(u, t.s + (x + g)) == (t.kind, |t.s|)
  {
    hide Lawful, First, Closed;
    var w := t.s + x;
    assert w[..|t.s|] == t.s && w[|t.s|..] == x;
    FirstIsProper(u, w);
    FirstIsBounded(u, w);
    if x == [] {
      assert x + g == g;
      SpaceIsBounded(u, t, g);
    } else {
      SameBound(u, t, x, x + g);
    }
    FirstOfConcat(u, t, x + g);
  }

  lemma {:induction false} SpaceIsBounded(u: Runes, t: Token, g: string)
    requires Lawful(u) && g != [] && u.isSpace(g[0])
    ensures Bounded(u, t, g)
  {
    hide Lawful, IsOperator;
    MarksAreNoWords(u, g[0]);
  }

  lemma {:induction false} SameBound(u: Runes, t: Token, a: string, b: string)
    requires a != [] && b != [] && a[0] == b[0] && Bounded(u, t, a)
    ensures Bounded(u, t, b)
  {
    hide IsOperator;
  }

  /** An open quote takes what follows. */
  lemma {:induction false} OpenThenSpace(u: Runes, t: Token, g: string)
    requires Lawful(u) && Proper(u, t) && !Closed(t) && forall i | 0 <= i < |g| :: u.isSpace(g[i])
    ensures First(u, t.s + g) == (t.kind, |t.s + g|) && !Opens(t) && !Opens(Token(t.s + g, t.kind))
  {
    hide Lawful, IsOperator, Dashes;
    var q, b := t.s[0], t.s[1..];
    assert (t.s + g)[0] == q && (t.s + g)[1..] == b + g;
    NoSpaceQuote(u, q);
    StaysOpen(q, b, g);
    OpenQuoteRuns(q, b + g);
    assert (b + g)[..|b + g|] == b + g;
  }

  lemma {:induction false} StaysOpen(q: char, b: string, g: string)
    requires !QuoteCloses(q, b) && q !in g
    ensures !QuoteCloses(q, b + g)
    decreases |b|
  {
    if b == [] {
      assert b + g == g;
      NeverCloses(q, g);
    } else if b[0] == q {
      assert (b + g)[2..] == b[2..] + g;
      StaysOpen(q, b[2..], g);
    } else {
      assert (b + g)[1..] == b[1..] + g;
      StaysOpen(q, b[1..], g);
    }
  }

  lemma {:induction false} NeverCloses(q: char, g: string)
    requires q !in g
    ensures !QuoteCloses(q, g)
  {
    if g != [] {
      assert g[0] in g;
      NeverCloses(q, g[1..]);
    }
  }

  lemma {:induction false} LastOfConcat(p: seq<Token>, a: seq<Token>)
    requires p == [] || Closed(p[|p| - 1])
    ensures LastClosed(p + a) <==> LastClosed(a)
  {
    hide Closed;
    if a != [] {
      assert (p + a)[|p + a| - 1] == a[|a| - 1];
    } else {
      assert p + a == p;
    }
  }

  lemma {:induction false} KeptIsClosed(u: Runes, t: Token)
    requires Proper(u, t) && Closed(t)
    ensures Kept(t) == [] || Closed(Kept(t)[|Kept(t)| - 1])
  {
    hide Dashes, StartsComment, IsOperator;
    var k := DashAt(t.s);
    if Opens(t) && k > 0 {
      assert t.s[..k][0] == t.s[0];
    }
  }

  lemma {:induction false} ClosedAtEnd(u: Runes, t: Token, x: string, g: string, dropping: bool)
    requires Lawful(u) && t.s != [] && !u.isSpace(t.s[0]) && First(u, t.s + x) == (t.kind, |t.s|)
    requires Proper(u, t) && Closed(t) && g != [] && u.isSpace(g[0])
    ensures dropping && '\n' in t.s ==> && Rest(u, t.s + x, dropping) == Read(u, ToLineEnd(t.s) + x)
                                        && Rest(u, t.s + (x + g), dropping) == Read(u, ToLineEnd(t.s) + (x + g))
    ensures !(dropping && '\n' in t.s) ==>
              var d := dropping || Opens(t);
              && (Rest(u, t.s + (x + g), dropping) == Rest(u, t.s + x, dropping) <==>
                  Rest(u, x + g, d) == Rest(u, x, d))
              && (LastClosed(Rest(u, t.s + x, dropping)) <==> LastClosed(Rest(u, x, d)))
  {
    hide Lawful, Rest, Read, First, Opens, Kept, Proper, Closed, ToLineEnd, LastClosed;
    TokenThenSpace(u, t, x, g);
    RestOfToken(u, t, x, dropping);
    RestOfToken(u, t, x + g, dropping);
    KeptIsClosed(u, t);
    SameHeads(Kept(t), Rest(u, x + g, Opens(t)), Rest(u, x, Opens(t)));
    LastOfConcat(Kept(t), Rest(u, x, Opens(t)));
  }

  lemma {:induction false} OpenAtEnd(u: Runes, t: Token, g: string, dropping: bool)
    requires Lawful(u) && Proper(u, t) && !Closed(t) && g != [] && forall i | 0 <= i < |g| :: u.isSpace(g[i])
    ensures dropping && '\n' in t.s ==> && Rest(u, t.s, dropping) == Read(u, ToLineEnd(t.s))
                                        && Rest(u, t.s + g, dropping) == Read(u, ToLineEnd(t.s) + g)
    ensures !(dropping && '\n' in t.s) ==>
              (Rest(u, t.s + g, dropping) == Rest(u, t.s, dropping) <==> LastClosed(Rest(u, t.s, dropping)))
  {
    hide Lawful, First, Opens, Proper, Closed, ToLineEnd, Tokens, Uncommented, Read;
    LineEndAfter(t.s, g);
    LineEndAfter(t.s, []);
    assert t.s + [] == t.s && ToLineEnd(t.s) + [] == ToLineEnd(t.s);
    if dropping {
      RestOfSpaces(u, g, true);
      RestOfNothing(u, true);
    } else {
      OpenThenSpace(u, t, g);
      var w := Token(t.s + g, t.kind);
      ProperStarts(u, t);
      assert w.s + [] == w.s && t.s + [] == t.s && w.s[0] == t.s[0];
      ProperLength(u, t);
      RestOfToken(u, t, [], false);
      RestOfToken(u, w, [], false);
      RestOfNothing(u, false);
      assert Rest(u, t.s, false) == [t] && Rest(u, t.s + g, false) == [w];
      assert [t][0] != [w][0];
    }
  }

  lemma {:induction false} ProperLength(u: Runes, t: Token)
    requires Proper(u, t)
    ensures First(u, t.s) == (t.kind, |t.s|)
  {
  }

  lemma {:induction false} NothingIsClosed()
    ensures LastClosed([])
  {
  }

  lemma {:induction false} NewlineIsNoStart(u: Runes, s: string)
    requires Lawful(u) && s != [] && !u.isSpace(s[0])
    ensures s[0] != '\n'
  {
  }

  lemma {:induction false} LineIsShorter(s: string)
    requires '\n' in s && s[0] != '\n'
    ensures |ToLineEnd(s)| < |s|
  {
  }

  lemma {:induction false} RestIsRead(u: Runes, x: string)
    ensures Rest(u, x, false) == Read(u, x)
  {
  }

  /** Whitespace at the end of a text is read if and only if what is read ends in an open
      quote. */
  lemma {:induction false} SpaceAtEnd(u: Runes, x: string, g: string, dropping: bool)
    requires Lawful(u) && g != [] && forall i | 0 <= i < |g| :: u.isSpace(g[i])
    ensures Rest(u, x + g, dropping) == Rest(u, x, dropping) <==> LastClosed(Rest(u, x, dropping))
    decreases |x|
  {
    hide Lawful, Rest, First, Opens, Kept, Closed, ToLineEnd, LastClosed;
    if x == [] {
      assert x + g == g;
      RestOfNothing(u, dropping);
      RestOfSpaces(u, g, dropping);
      NothingIsClosed();
    } else if u.isSpace(x[0]) {
      assert x == [x[0]] + x[1..] && x + g == [x[0]] + (x[1..] + g);
      RestOfSpace(u, x[0], x[1..], dropping);
      RestOfSpace(u, x[0], x[1..] + g, dropping);
      SpaceAtEnd(u, x[1..], g, dropping && x[0] != '\n');
    } else {
      var (kind, n) := First(u, x);
      var t, rest := Token(x[..n], kind), x[n..];
      assert x == t.s + rest && x + g == t.s + (rest + g);
      FirstIsProper(u, x);
      FirstIsClosed(u, x);
      if Closed(t) {
        ClosedAtEnd(u, t, rest, g, dropping);
        if dropping && '\n' in t.s {
          var line := ToLineEnd(t.s);
          NewlineIsNoStart(u, t.s);
          LineIsShorter(t.s);
          assert line + (rest + g) == line + rest + g;
          SpaceAtEnd(u, line + rest, g, false);
          RestIsRead(u, line + rest);
          RestIsRead(u, line + rest + g);
        } else {
          SpaceAtEnd(u, rest, g, dropping || Opens(t));
        }
      } else {
        assert t.s == x;
        OpenAtEnd(u, t, g, dropping);
        if dropping && '\n' in t.s {
          NewlineIsNoStart(u, t.s);
          LineIsShorter(t.s);
          SpaceAtEnd(u, ToLineEnd(t.s), g, false);
          RestIsRead(u, ToLineEnd(t.s));
          RestIsRead(u, ToLineEnd(t.s) + g);
        }
      }
    }
  }

  // ----- a comment whose quote is never closed -----

  /** Trimming a text and going to its first line end can be done in either order. */
  lemma {:induction false} TrimmedLine(u: Runes, s: string)
    requires Lawful(u)
    ensures var r, line := TrimRight(u, s), ToLineEnd(s);
            && ('\n' in r ==> ToLineEnd(r) == TrimRight(u, line))
            && ('\n' !in r ==> TrimRight(u, line) == [] && forall i | 0 <= i < |line| :: u.isSpace(line[i]))
  {
    hide Lawful, ToLineEnd, TrimRight;
    var r, line := TrimRight(u, s), ToLineEnd(s);
    TrimRightSplit(u, s);
    var g := s[|r|..];
    assert s == r + g;
    LineEndAfter(r, g);
    if '\n' in r {
      LineEndIsEnd(r);
      TrimRightSpaces(u, ToLineEnd(r), g);
      TrimmedStays(u, ToLineEnd(r));
    } else {
      LineEndIsEnd(g);
      assert forall i | 0 <= i < |line| :: line[i] == g[|g| - |line| + i];
      TrimRightSpaces(u, [], line);
      assert [] + line == line;
      TrimNothing(u);
    }
  }

  lemma {:induction false} LineEndIsEnd(s: string)
    ensures var line := ToLineEnd(s); |line| <= |s| && line == s[|s| - |line|..] && ('\n' in s ==> line != [])
  {
    if s != [] && s[0] != '\n' {
      LineEndIsEnd(s[1..]);
      assert forall x | x in s && x != s[0] :: x in s[1..];
    }
  }

  lemma {:induction false} TrimmedStays(u: Runes, s: string)
    requires s == [] || !u.isSpace(s[|s| - 1])
    ensures TrimRight(u, s) == s
  {
  }

  /** A comment whose quote runs to the end of the statement, in a layout that drops the same
      tokens: the formatted statement reads the same if and only if the lines after the
      comment close their quotes, or nothing is trimmed. */
  lemma {:induction false} OpenQuoteReadsTheSame(u: Runes, q: string, j: nat)
    requires Lawful(u) && NoGlue(Tokens(u, q)) && j == |Tokens(u, q)| - 1 && !Closed(Tokens(u, q)[j])
    requires var ts, lines := Tokens(u, q), Lines(u, q, false);
             CutAt(ts, lines, false) == j && Drops(ts, lines, false) == Drops(ts, Breaks(u, ts), false)
    ensures var line := ToLineEnd(Tokens(u, q)[j].s);
            Read(u, Format(u, q)) == Read(u, q) <==>
              TrimRight(u, line) == line || LastClosed(Read(u, TrimRight(u, line)))
  {
    hide Lawful, Tokens, Format, NoGlue, ChopLast, Lines, Breaks, Survivors, CutAt, Read, Drops, After, ToLineEnd,
         Closed,
         TrimRight, LastClosed, LosesBlanks, Readable;
    var ts, lines := Tokens(u, q), Lines(u, q, false);
    var line := ToLineEnd(ts[j].s);
    var left := Survivors(ts[..j], lines[..j], false);
    ReadByLines(u, q);
    OpenEndsText(u, q);
    assert line + [] == line;
    OpenFormatReads(u, q, j);
    SameHeads(left, Read(u, TrimRight(u, line)), Read(u, line));
    TrimRightSplit(u, line);
    var r := TrimRight(u, line);
    var g := line[|r|..];
    assert line == r + g;
    if g != [] {
      assert forall i | 0 <= i < |g| :: g[i] == line[|r| + i];
      SpaceAtEnd(u, r, g, false);
      RestIsRead(u, r);
      RestIsRead(u, line);
    }
  }

  lemma {:induction false} OpenFormatReads(u: Runes, q: string, j: nat)
    requires Lawful(u) && NoGlue(Tokens(u, q)) && j == |Tokens(u, q)| - 1 && !Closed(Tokens(u, q)[j])
    requires var ts, lines := Tokens(u, q), Lines(u, q, false);
             CutAt(ts, lines, false) == j && Drops(ts, lines, false) == Drops(ts, Breaks(u, ts), false)
    ensures var ts, lines := Tokens(u, q), Lines(u, q, false);
            Read(u, Format(u, q))
            == Survivors(ts[..j], lines[..j], false) + Read(u, TrimRight(u, ToLineEnd(ts[j].s)))
  {
    hide Lawful, Tokens, Format, NoGlue, Lines, Breaks, Survivors, CutAt, Read, Drops, After, ToLineEnd, Closed,
         TrimRight, Readable;
    var ts, lines, breaks, text := Tokens(u, q), Lines(u, q, false), Breaks(u, Tokens(u, q)), Format(u, q);
    var cs, t := ChopLast(u, ts), ts[j];
    TokensAreReadable(u, q);
    FormatLines(u, q);
    FormattedRead(u, q);
    SameDrops(ts, lines, breaks, j, false);
    SameDrops(ts, lines, breaks, j + 1, false);
    TrimmedLine(u, t.s);
    ChopLastReadable(u, ts);
    assert cs[..j] == ts[..j] && cs[j] == Chopped(u, t);
    ChoppedCut(u, ts, breaks, j);
    var left := Survivors(ts[..j], breaks[..j], false);
    if '\n' in cs[j].s {
      OpenIsChopped(u, ts, j);
      OpenEndsText(u, text);
      assert ToLineEnd(cs[j].s) + [] == ToLineEnd(cs[j].s);
    } else {
      RestOfNothing(u, false);
      RestIsRead(u, []);
      assert left + [] == left;
    }
  }

  lemma {:induction false} OpenIsChopped(u: Runes, ts: seq<Token>, j: nat)
    requires Lawful(u) && Readable(u, ts) && j == |ts| - 1 && !Closed(ts[j])
    ensures !Closed(ChopLast(u, ts)[j])
  {
    hide Lawful, Proper, Closed;
    assert Proper(u, ts[j]);
    ChoppedIsProper(u, ts[j]);
  }

  /** The last token, dropped and cut: trimmed, it is cut if it still has its line end. */
  lemma {:induction false} ChoppedCut(u: Runes, ts: seq<Token>, lines: seq<bool>, j: nat)
    requires Lawful(u) && Readable(u, ts) && |ts| == |lines| && j == |ts| - 1 && !Closed(ts[j])
    requires CutAt(ts, lines, false) == j
    ensures var cs := ChopLast(u, ts);
            && CutAt(cs, lines, false) == (if '\n' in cs[j].s then j else |ts|)
            && ('\n' !in cs[j].s ==> Survivors(cs, lines, false) == Survivors(ts[..j], lines[..j], false))
  {
    hide Lawful, Proper, Closed, Survivors, Drops, Chopped;
    var cs := ChopLast(u, ts);
    assert Proper(u, ts[j]);
    ChoppedIsSame(u, ts[j]);
    ChoppedKind(u, ts[j]);
    assert ts == ts[..j] + [ts[j]] && cs == ts[..j] + [cs[j]] && lines == lines[..j] + [lines[j]];
    LastCut(ts[..j], ts[j], cs[j], lines, false);
    LastDrops(ts[..j], ts[j], cs[j], lines, false);
    LastSurvives(ts[..j], cs[j], lines[..j], lines[j], false);
    assert Survivors(ts[..j], lines[..j], false) + [] == Survivors(ts[..j], lines[..j], false);
  }

  lemma {:induction false} LastCut(ts: seq<Token>, t: Token, c: Token, lines: seq<bool>, dropping: bool)
    requires |ts| + 1 == |lines| && !Opens(c) && CutAt(ts + [t], lines, dropping) == |ts|
    ensures CutAt(ts + [c], lines, dropping) == if '\n' in c.s then |ts| else |ts| + 1
    ensures Drops(ts + [t], lines, dropping)[|ts|] && '\n' in t.s
    decreases |ts|
  {
    hide Opens;
    if ts == [] {
      assert ([c])[1..] == [] && lines[1..] == [];
      assert ts + [c] == [c] && ts + [t] == [t] && [t][1..] == [];
      NothingToCut(dropping);
    } else {
      assert (ts + [t])[1..] == ts[1..] + [t] && (ts + [c])[1..] == ts[1..] + [c];
      assert (ts + [t])[0] == ts[0] && (ts + [c])[0] == ts[0];
      LastCut(ts[1..], t, c, lines[1..], if dropping && !lines[0] then true else Opens(ts[0]));
    }
  }

  lemma {:induction false} NothingToCut(dropping: bool)
    ensures CutAt([], [], dropping) == 0
  {
  }
}
