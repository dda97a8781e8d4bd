/**
  The formatter, which descends into parentheses and writes as it goes, lays a statement out
  by the rule of SqlBreaks: the same whitespace before every token.
 */
module SqlLayout {
  import opened SqlTokens
  import opened SqlFormat
  import opened SqlFormatLaws
  import opened SqlFormatTokens
  import opened SqlFormatRoundTrip
  import opened SqlFormatText
  import opened SqlBreaks

  // ----- the formatter follows the rule -----

  /** Between tokens, the formatter's fields say what the rule says. */
  predicate Synced(ts: seq<Token>, st: State, i: nat, sc: Scan)
    requires i <= |ts|
  {
    && Tail(st.out, "") == (if sc.begun then Line(sc.line) else "")
    && (st.last.s == "\n" <==> sc.begun) && st.lineIndent == sc.line
    && (i == 0 ==> st.out == []) && (i > 0 ==> Flat(st.out) != [])
    && (i > 0 && !sc.begun ==> st.last == ts[i - 1] && st.lastKeyword == sc.wide)
  }

  /** What was written before token i is what the rule gives. */
  predicate Tracks(u: Runes, ts: seq<Token>, st: State, i: nat) {
    && Gaps(st.out, "") == GapsTo(u, ts, Cut(|ts|, i))
    && (i < |ts| ==> Synced(ts, st, i, ScanAt(u, ts, i)))
  }

  /** Token i was just written. */
  predicate JustWritten(u: Runes, ts: seq<Token>, st: State, i: nat, wide: bool)
    requires i < |ts|
  {
    && Gaps(st.out, "") == GapsTo(u, ts, i + 1) && Tail(st.out, "") == "" && Flat(st.out) != []
    && st.last == ts[i] && st.last.s != "\n" && st.lineIndent == LineOf(u, ts, i, ScanAt(u, ts, i))
    && st.lastKeyword == wide
  }

  /** A line break first, if the token starts a line by itself. */
  function Lined(st: State, own: Option<nat>): State {
    if own.Some? then Newline(st, own.value) else st
  }

  /** The clause of a level, as the formatter names it. */
  predicate Named(kw: seq<string>, clause: string) {
    && (clause == "SELECT" <==> kw == ["SELECT"]) && (clause == "WHERE" <==> kw == ["WHERE"])
    && (clause == "HAVING" <==> kw == ["HAVING"])
  }

  /** The formatter looks at token i in the innermost frame. */
  predicate Within(u: Runes, ts: seq<Token>, c: Cursor, indent: nat, inline: bool, at: nat, below: seq<Frame>) {
    c.i < |ts| ==>
      var sc := ScanAt(u, ts, c.i);
      var f := sc.frames[0];
      && sc.skip == 0 && sc.frames[1..] == below && f.inline == inline && f.at == at && f.between == c.between
      && Named(f.clause, c.clause) && (inline || indent == Base(sc.frames))
  }

  lemma {:induction false} NextIs(u: Runes, ts: seq<Token>, i: nat)
    requires i < |ts|
    ensures ScanAt(u, ts, i + 1) == Next(u, ts, i, ScanAt(u, ts, i))
  {
  }

  lemma {:induction false} GapIs(u: Runes, ts: seq<Token>, st: State, i: nat)
    requires i < |ts| && Synced(ts, st, i, ScanAt(u, ts, i))
    ensures var w := Lined(st, OwnLine(u, ts, i, ScanAt(u, ts, i)));
            Tail(w.out, "") + (if Spaced(w, ts[i]) then " " else "") == GapBefore(u, ts, i)
  {
    hide ScanAt, OwnLine, Tail, Newline, Flat, Line;
    var own := OwnLine(u, ts, i, ScanAt(u, ts, i));
    if own.Some? {
      NewlineGaps(st, own.value);
    } else {
      EmptyFlat();
    }
  }

  /** Writing token i, after the line break it starts with. */
  lemma {:induction false} WriteTracks(u: Runes, ts: seq<Token>, st: State, i: nat, keyword: bool)
    requires AllFine(ts) && i < |ts| && Tracks(u, ts, st, i)
    ensures var w := Write(u, Lined(st, OwnLine(u, ts, i, ScanAt(u, ts, i))), ts[i], keyword);
            JustWritten(u, ts, w, i, w.lastKeyword)
  {
    hide Write, Gaps, Tail, GapBefore, Flat, Spaced, ScanAt, OwnLine, Newline, Synced, Line;
    var own := OwnLine(u, ts, i, ScanAt(u, ts, i));
    assert Fine(ts[i]);
    GapIs(u, ts, st, i);
    WriteGaps(u, Lined(st, own), ts[i], keyword);
    if own.Some? {
      NewlineGaps(st, own.value);
    }
    LineIndentIs(u, ts, st, i);
  }

  lemma {:induction false} LineIndentIs(u: Runes, ts: seq<Token>, st: State, i: nat)
    requires i < |ts| && Synced(ts, st, i, ScanAt(u, ts, i))
    ensures var sc := ScanAt(u, ts, i); Lined(st, OwnLine(u, ts, i, sc)).lineIndent == LineOf(u, ts, i, sc)
  {
    hide ScanAt, OwnLine;
  }

  /** The next token goes on the same line. */
  lemma {:induction false} GoesOn(u: Runes, ts: seq<Token>, st: State, i: nat)
    requires i < |ts| && JustWritten(u, ts, st, i, ScanAt(u, ts, i + 1).wide)
    requires !ScanAt(u, ts, i + 1).begun && ScanAt(u, ts, i + 1).line == LineOf(u, ts, i, ScanAt(u, ts, i))
    ensures Tracks(u, ts, st, i + 1)
  {
    hide Gaps, Tail, GapsTo, Flat, ScanAt;
  }

  /** The next token starts a line. */
  lemma {:induction false} BeginsLine(u: Runes, ts: seq<Token>, st: State, i: nat, wide: bool, indent: nat)
    requires i < |ts| && JustWritten(u, ts, st, i, wide)
    requires ScanAt(u, ts, i + 1).begun && ScanAt(u, ts, i + 1).line == indent
    ensures Tracks(u, ts, Newline(st, indent), i + 1)
  {
    hide Gaps, Tail, GapsTo, Flat, ScanAt, Newline;
    NewlineGaps(st, indent);
    assert "" + Line(indent) == Line(indent);
  }

  // ----- one token -----

  /** What Write remembers of a word. */
  lemma {:induction false} FlagIs(u: Runes, st: State, t: Token)
    ensures t.kind == Kind.Word ==> Write(u, st, t, true).lastKeyword == Wide(u, t, true)
    ensures Write(u, st, t, t.kind == Kind.Word && IsKeyword(u.upper(t.s))).lastKeyword == Wide(u, t, false)
    ensures !Write(u, st, t, false).lastKeyword
  {
    hide Spaced;
  }

  lemma {:induction false} CommaTracks(u: Runes, ts: seq<Token>, c: Cursor, indent: nat, inline: bool, at: nat,
                                       below: seq<Frame>)
    requires AllFine(ts) && c.i < |ts| && ts[c.i].kind == Comma && Tracks(u, ts, c.st, c.i)
    requires Within(u, ts, c, indent, inline, at, below)
    ensures var r := Advance(u, ts, c, indent, inline);
            Tracks(u, ts, r.st, r.i) && Within(u, ts, r, indent, inline, at, below)
  {
    hide Write, Newline, Tracks, JustWritten, ScanAt, Parenthesis, AdvanceWord, Wide;
    NextIs(u, ts, c.i);
    WriteTracks(u, ts, c.st, c.i, false);
    FlagIs(u, c.st, ts[c.i]);
    var w := Write(u, c.st, ts[c.i], false);
    if !inline && c.clause == "SELECT" {
      BeginsLine(u, ts, w, c.i, false, indent + 1);
    } else {
      GoesOn(u, ts, w, c.i);
    }
  }

  /** The formatter's own tests for a word are those of the rule. */
  lemma {:induction false} SplitsIs(u: Runes, t: Token, f: Frame, clause: string)
    requires Named(f.clause, clause)
    ensures BreaksLine(u, t, clause, f.between) == Splits(u, t, f)
    ensures StillBetween(u, t, clause, f.between) == Waits(u, t, f)
  {
  }

  lemma {:induction false} PlainTracks(u: Runes, ts: seq<Token>, c: Cursor, indent: nat, inline: bool, at: nat,
                                       below: seq<Frame>)
    requires AllFine(ts) && c.i < |ts| && Tracks(u, ts, c.st, c.i) && Within(u, ts, c, indent, inline, at, below)
    requires ts[c.i].kind != Open && ts[c.i].kind != Close && ts[c.i].kind != Comma
    requires inline || ClauseAt(u, ts, c.i) == []
    ensures var r := AdvanceWord(u, ts, c, indent, inline);
            Tracks(u, ts, r.st, r.i) && Within(u, ts, r, indent, inline, at, below)
  {
    hide Write, Newline, Tracks, JustWritten, ScanAt, Wide, ClauseAt, IsKeyword, BreaksLine, StillBetween, Splits,
         Waits, Named;
    var t, sc := ts[c.i], ScanAt(u, ts, c.i);
    NextIs(u, ts, c.i);
    SplitsIs(u, t, sc.frames[0], c.clause);
    var keyword := t.kind == Kind.Word && IsKeyword(u.upper(t.s));
    WriteTracks(u, ts, c.st, c.i, keyword);
    var st := Lined(c.st, OwnLine(u, ts, c.i, sc));
    FlagIs(u, st, t);
    GoesOn(u, ts, Write(u, st, t, keyword), c.i);
  }

  // ----- a clause -----

  lemma {:induction false} WordAt(u: Runes, ts: seq<Token>, i: nat, k: nat)
    requires ClauseAt(u, ts, i) != [] && k < |ClauseAt(u, ts, i)|
    ensures i + |ClauseAt(u, ts, i)| <= |ts| && ts[i + k].kind == Kind.Word
  {
    hide ClauseAt;
    var kw := ClauseAt(u, ts, i);
    assert Is(u, ts[i + k], kw[k]);
  }

  /** The words of a clause after the first. */
  lemma {:induction false} WordsTrack(u: Runes, ts: seq<Token>, st: State, i: nat, n: nat)
    requires AllFine(ts) && i + n <= |ts| && Tracks(u, ts, st, i) && ScanAt(u, ts, i).skip == n
    requires forall k | i <= k < i + n :: ts[k].kind == Kind.Word
    ensures Tracks(u, ts, WriteAll(u, st, ts[i..i + n]), i + n)
    ensures var sc := ScanAt(u, ts, i + n); sc.skip == 0 && sc.frames == ScanAt(u, ts, i).frames
    decreases n
  {
    hide Write, Tracks, JustWritten, ScanAt, Wide;
    if n > 0 {
      NextIs(u, ts, i);
      WriteTracks(u, ts, st, i, true);
      FlagIs(u, st, ts[i]);
      var w := Write(u, st, ts[i], true);
      GoesOn(u, ts, w, i);
      WordsTrack(u, ts, w, i + 1, n - 1);
      assert ts[i..i + n][0] == ts[i] && ts[i..i + n][1..] == ts[i + 1..i + 1 + (n - 1)];
    }
  }

  lemma {:induction false} BeforeClauseIs(u: Runes, ts: seq<Token>, c: Cursor, indent: nat, at: nat, below: seq<Frame>)
    requires c.i < |ts| && Tracks(u, ts, c.st, c.i) && Within(u, ts, c, indent, false, at, below)
    requires ClauseAt(u, ts, c.i) != []
    ensures BeforeClause(c.st, ClauseAt(u, ts, c.i), indent) == Lined(c.st, OwnLine(u, ts, c.i, ScanAt(u, ts, c.i)))
  {
    hide Newline, ScanAt, ClauseAt, Flat, Tail, Gaps, GapsTo, Splits;
    WordAt(u, ts, c.i, 0);
    EmptyFlat();
  }

  lemma {:induction false} LongIsBlank(kw: seq<string>)
    requires |kw| > 1
    ensures ' ' in Joined(kw)
  {
    assert Joined(kw) == kw[0] + " " + Joined(kw[1..]);
    assert Joined(kw)[|kw[0]|] == ' ';
  }

  lemma {:induction false} JoinedCapitals(kw: seq<string>)
    requires forall k | 0 <= k < |kw| :: Capitals(kw[k])
    ensures Capitals(Joined(kw))
  {
    if |kw| > 1 {
      JoinedCapitals(kw[1..]);
    }
  }

  lemma {:induction false} ClauseCapitals(n: nat, k: nat)
    requires n < |CLAUSES| && k < |CLAUSES[n]|
    ensures Capitals(CLAUSES[n][k])
  {
  }

  lemma {:induction false} ClauseUpper(u: Runes, kw: seq<string>)
    requires Lawful(u) && kw in CLAUSES
    ensures u.upper(Joined(kw)) == Joined(kw)
  {
    hide Joined, Capitals;
    var n :| 0 <= n < |CLAUSES| && CLAUSES[n] == kw;
    forall k | 0 <= k < |kw| ensures Capitals(kw[k]) {
      ClauseCapitals(n, k);
    }
    JoinedCapitals(kw);
  }

  /** A name of one word is the word; one of several has a blank in it. */
  lemma {:induction false} NamedJoined(kw: seq<string>)
    requires kw != []
    ensures Named(kw, Joined(kw))
  {
    hide Joined;
    OneWord(kw);
    if |kw| > 1 {
      LongIsBlank(kw);
    }
  }

  lemma {:induction false} ClauseNamed(u: Runes, kw: seq<string>)
    requires Lawful(u) && kw in CLAUSES && kw != []
    ensures Named(kw, u.upper(Joined(kw)))
  {
    hide Joined, Named, Lawful;
    ClauseUpper(u, kw);
    NamedJoined(kw);
  }

  lemma {:induction false} OneWord(kw: seq<string>)
    ensures |kw| == 1 ==> Joined(kw) == kw[0]
  {
  }

  /** The rule after the first word of a clause. */
  lemma {:induction false} ClauseScans(u: Runes, ts: seq<Token>, c: Cursor, indent: nat, at: nat, below: seq<Frame>)
    requires c.i < |ts| && Within(u, ts, c, indent, false, at, below) && ClauseAt(u, ts, c.i) != []
    ensures var kw, sc, next := ClauseAt(u, ts, c.i), ScanAt(u, ts, c.i), ScanAt(u, ts, c.i + 1);
            && next.frames == [sc.frames[0].(clause := kw)] + below && next.skip == |kw| - 1
            && next.begun == (kw == ["SELECT"]) && next.wide == Wide(u, ts[c.i], true)
            && next.line == (if kw == ["SELECT"] then indent + 1 else LineOf(u, ts, c.i, sc))
            && c.i + |kw| <= |ts| && forall k | c.i <= k < c.i + |kw| :: ts[k].kind == Kind.Word
  {
    hide ScanAt, ClauseAt, Wide, OwnLine, StandsAt, Is;
    var kw := ClauseAt(u, ts, c.i);
    WordAt(u, ts, c.i, 0);
    NextIs(u, ts, c.i);
    forall k | c.i <= k < c.i + |kw| ensures ts[k].kind == Kind.Word {
      WordAt(u, ts, c.i, k - c.i);
    }
  }

  lemma {:induction false} FirstWord(u: Runes, st: State, ts: seq<Token>)
    requires ts != []
    ensures WriteAll(u, st, ts) == WriteAll(u, Write(u, st, ts[0], true), ts[1..])
    ensures |ts| == 1 ==> WriteAll(u, st, ts) == Write(u, st, ts[0], true)
  {
    hide Write;
  }

  lemma {:induction false} NamedSelect(kw: seq<string>, clause: string)
    requires Named(kw, clause)
    ensures clause == "SELECT" <==> kw == ["SELECT"]
  {
  }

  /** A clause is written, and a line begun after SELECT. */
  lemma {:induction false} ClauseWritten(u: Runes, ts: seq<Token>, c: Cursor, indent: nat, at: nat, below: seq<Frame>)
    requires AllFine(ts) && c.i < |ts| && Tracks(u, ts, c.st, c.i) && ClauseAt(u, ts, c.i) != []
    requires Within(u, ts, c, indent, false, at, below)
    ensures var kw := ClauseAt(u, ts, c.i);
            && c.i + |kw| <= |ts|
            && var w := WriteAll(u, BeforeClause(c.st, kw, indent), ts[c.i..c.i + |kw|]);
               Tracks(u, ts, if kw == ["SELECT"] then Newline(w, indent + 1) else w, c.i + |kw|)
    ensures var n, sc := c.i + |ClauseAt(u, ts, c.i)|, ScanAt(u, ts, c.i);
            ScanAt(u, ts, n).skip == 0 &&
            ScanAt(u, ts, n).frames == [sc.frames[0].(clause := ClauseAt(u, ts, c.i))] + below
  {
    hide WriteAll, Write, Newline, Tracks, JustWritten, ScanAt, ClauseAt, AllFine, Wide, BeforeClause, StandsAt, Named,
         OwnLine, LineOf, Within, Lined;
    var kw, i := ClauseAt(u, ts, c.i), c.i;
    var n, st := |kw|, Lined(c.st, OwnLine(u, ts, i, ScanAt(u, ts, i)));
    BeforeClauseIs(u, ts, c, indent, at, below);
    ClauseScans(u, ts, c, indent, at, below);
    WriteTracks(u, ts, c.st, i, true);
    var w := Write(u, st, ts[i], true);
    FlagIs(u, st, ts[i]);
    FirstWord(u, st, ts[i..i + n]);
    assert ts[i..i + n][0] == ts[i] && ts[i..i + n][1..] == ts[i + 1..i + 1 + (n - 1)];
    if kw == ["SELECT"] {
      BeginsLine(u, ts, w, i, w.lastKeyword, indent + 1);
    } else {
      GoesOn(u, ts, w, i);
      WordsTrack(u, ts, w, i + 1, n - 1);
    }
  }

  lemma {:induction false} ClauseTracks(u: Runes, ts: seq<Token>, c: Cursor, indent: nat, at: nat, below: seq<Frame>)
    requires Lawful(u) && AllFine(ts) && c.i < |ts| && Tracks(u, ts, c.st, c.i) && ClauseAt(u, ts, c.i) != []
    requires Within(u, ts, c, indent, false, at, below)
    ensures var r := AdvanceWord(u, ts, c, indent, false);
            Tracks(u, ts, r.st, r.i) && Within(u, ts, r, indent, false, at, below)
  {
    hide Lawful, WriteAll, Newline, Tracks, ScanAt, ClauseAt, Joined, AllFine, BeforeClause, StandsAt, Named;
    var kw := ClauseAt(u, ts, c.i);
    ClauseWritten(u, ts, c, indent, at, below);
    ClauseNamed(u, kw);
    NamedSelect(kw, u.upper(Joined(kw)));
  }

  // ----- parentheses -----

  lemma {:induction false} AdvanceTracks(u: Runes, ts: seq<Token>, c: Cursor, indent: nat, inline: bool, at: nat,
                                         below: seq<Frame>)
    requires Lawful(u) && AllFine(ts) && !AtEnd(ts, c.i) && Tracks(u, ts, c.st, c.i)
    requires Within(u, ts, c, indent, inline, at, below)
    ensures var r := Advance(u, ts, c, indent, inline);
            Tracks(u, ts, r.st, r.i) && Within(u, ts, r, indent, inline, at, below)
    decreases |ts| - c.i, 2
  {
    hide Lawful, Parenthesis, Write, Newline, AdvanceWord, Tracks, Within, ClauseAt;
    if ts[c.i].kind == Open {
      ParenthesisTracks(u, ts, c, indent, inline, at, below);
    } else if ts[c.i].kind == Comma {
      CommaTracks(u, ts, c, indent, inline, at, below);
    } else if !inline && ClauseAt(u, ts, c.i) != [] {
      ClauseTracks(u, ts, c, indent, at, below);
    } else {
      PlainTracks(u, ts, c, indent, inline, at, below);
    }
  }

  lemma {:induction false} LevelTracks(u: Runes, ts: seq<Token>, c: Cursor, indent: nat, inline: bool, at: nat,
                                       below: seq<Frame>)
    requires Lawful(u) && AllFine(ts) && Tracks(u, ts, c.st, c.i) && Within(u, ts, c, indent, inline, at, below)
    ensures var r := Level(u, ts, c, indent, inline);
            Tracks(u, ts, r.st, r.i) && Within(u, ts, r, indent, inline, at, below)
    decreases |ts| - c.i, 3
  {
    hide Lawful, Advance, Tracks, Within;
    if !AtEnd(ts, c.i) {
      AdvanceTracks(u, ts, c, indent, inline, at, below);
      LevelTracks(u, ts, Advance(u, ts, c, indent, inline), indent, inline, at, below);
    }
  }

  /** Inside a parenthesis. */
  lemma {:induction false} OpenTracks(u: Runes, ts: seq<Token>, st: State, i: nat, indent: nat)
    requires AllFine(ts) && i < |ts| && ts[i].kind == Open && Tracks(u, ts, st, i) && ScanAt(u, ts, i).skip == 0
    ensures var opening, sc, line := Write(u, st, ts[i], false), ScanAt(u, ts, i), st.lineIndent;
            if BeginsSubquery(u, ts, i + 1) then
              && Tracks(u, ts, Newline(opening, line + 1), i + 1)
              && Within(u, ts, Cursor(Newline(opening, line + 1), i + 1, "", false), line + 1, false, line, sc.frames)
            else
              && Tracks(u, ts, opening, i + 1)
              && Within(u, ts, Cursor(opening, i + 1, "", false), indent, true, line, sc.frames)
  {
    hide Write, Newline, JustWritten, ScanAt, Gaps, Tail, GapsTo, Flat, Line, BeginsSubquery;
    NextIs(u, ts, i);
    WriteTracks(u, ts, st, i, false);
    FlagIs(u, st, ts[i]);
    var opening := Write(u, st, ts[i], false);
    if BeginsSubquery(u, ts, i + 1) {
      BeginsLine(u, ts, opening, i, false, st.lineIndent + 1);
    } else {
      GoesOn(u, ts, opening, i);
    }
  }

  /** The closing parenthesis after the level inside, if the text has it. */
  lemma {:induction false} CloseTracks(u: Runes, ts: seq<Token>, c: Cursor, indent: nat, inline: bool, at: nat,
                                       below: seq<Frame>)
    requires AllFine(ts) && AtEnd(ts, c.i) && below != [] && Tracks(u, ts, c.st, c.i)
    requires Within(u, ts, c, indent, inline, at, below)
    ensures var st := if inline then c.st else Newline(c.st, at);
            var r := if c.i < |ts| then Write(u, st, ts[c.i], false) else st;
            && Tracks(u, ts, r, c.i + 1)
            && (c.i + 1 < |ts| ==> ScanAt(u, ts, c.i + 1).frames == below && ScanAt(u, ts, c.i + 1).skip == 0)
  {
    hide Write, Newline, JustWritten, ScanAt, Gaps, Tail, GapsTo, Flat, Line, Synced, Splits, ClauseAt;
    var st := if inline then c.st else Newline(c.st, at);
    if c.i < |ts| {
      NextIs(u, ts, c.i);
      WriteTracks(u, ts, c.st, c.i, false);
      FlagIs(u, st, ts[c.i]);
      GoesOn(u, ts, Write(u, st, ts[c.i], false), c.i);
    } else {
      NewlineGaps(c.st, at);
    }
  }

  lemma {:induction false} SubqueryTracks(u: Runes, ts: seq<Token>, st: State, i: nat, indent: nat)
    requires Lawful(u) && AllFine(ts) && i < |ts| && ts[i].kind == Open && Tracks(u, ts, st, i)
    requires ScanAt(u, ts, i).skip == 0 && BeginsSubquery(u, ts, i + 1)
    ensures var (inner, j) := Parenthesis(u, ts, st, i, indent);
            && Tracks(u, ts, if j < |ts| then Write(u, inner, ts[j], false) else inner, j + 1)
            && (j + 1 < |ts| ==>
                  ScanAt(u, ts, j + 1).frames == ScanAt(u, ts, i).frames && ScanAt(u, ts, j + 1).skip == 0)
    decreases |ts| - i, 0
  {
    hide Lawful, Level, Write, Newline, ScanAt, Tracks, Within, AllFine;
    var opening, line, frames := Write(u, st, ts[i], false), st.lineIndent, ScanAt(u, ts, i).frames;
    OpenTracks(u, ts, st, i, indent);
    var inside := Cursor(Newline(opening, line + 1), i + 1, "", false);
    LevelTracks(u, ts, inside, line + 1, false, line, frames);
    CloseTracks(u, ts, Level(u, ts, inside, line + 1, false), line + 1, false, line, frames);
  }

  lemma {:induction false} ArgumentsTrack(u: Runes, ts: seq<Token>, st: State, i: nat, indent: nat)
    requires Lawful(u) && AllFine(ts) && i < |ts| && ts[i].kind == Open && Tracks(u, ts, st, i)
    requires ScanAt(u, ts, i).skip == 0 && !BeginsSubquery(u, ts, i + 1)
    ensures var (inner, j) := Parenthesis(u, ts, st, i, indent);
            && Tracks(u, ts, if j < |ts| then Write(u, inner, ts[j], false) else inner, j + 1)
            && (j + 1 < |ts| ==>
                  ScanAt(u, ts, j + 1).frames == ScanAt(u, ts, i).frames && ScanAt(u, ts, j + 1).skip == 0)
    decreases |ts| - i, 0
  {
    hide Lawful, Level, Write, Newline, ScanAt, Tracks, Within, AllFine;
    var opening, line, frames := Write(u, st, ts[i], false), st.lineIndent, ScanAt(u, ts, i).frames;
    OpenTracks(u, ts, st, i, indent);
    var inside := Cursor(opening, i + 1, "", false);
    LevelTracks(u, ts, inside, indent, true, line, frames);
    CloseTracks(u, ts, Level(u, ts, inside, indent, true), indent, true, line, frames);
  }

  lemma {:induction false} ParenthesisTracks(u: Runes, ts: seq<Token>, c: Cursor, indent: nat, inline: bool, at: nat,
                                             below: seq<Frame>)
    requires Lawful(u) && AllFine(ts) && c.i < |ts| && ts[c.i].kind == Open && Tracks(u, ts, c.st, c.i)
    requires Within(u, ts, c, indent, inline, at, below)
    ensures var r := Advance(u, ts, c, indent, inline);
            Tracks(u, ts, r.st, r.i) && Within(u, ts, r, indent, inline, at, below)
    decreases |ts| - c.i, 1
  {
    hide Lawful, Parenthesis, Write, Tracks, AllFine, ScanAt, Named;
    if BeginsSubquery(u, ts, c.i + 1) {
      SubqueryTracks(u, ts, c.st, c.i, indent);
    } else {
      ArgumentsTrack(u, ts, c.st, c.i, indent);
    }
  }

  // ----- the statement -----

  lemma {:induction false} AllTracks(u: Runes, ts: seq<Token>, st: State, i: nat)
    requires Lawful(u) && AllFine(ts) && Tracks(u, ts, st, i)
    requires Within(u, ts, Cursor(st, i, "", false), 0, false, 0, [])
    ensures Gaps(All(u, ts, st, i).out, "") == GapsTo(u, ts, |ts|)
    decreases |ts| - i
  {
    hide Lawful, Level, Write, JustWritten, ScanAt, Gaps, Tail, GapsTo, Flat, Synced, ClauseAt, Splits;
    var c := Cursor(st, i, "", false);
    LevelTracks(u, ts, c, 0, false, 0, []);
    var r := Level(u, ts, c, 0, false);
    if r.i < |ts| {
      NextIs(u, ts, r.i);
      WriteTracks(u, ts, r.st, r.i, false);
      FlagIs(u, r.st, ts[r.i]);
      var w := Write(u, r.st, ts[r.i], false);
      GoesOn(u, ts, w, r.i);
      AllTracks(u, ts, w, r.i + 1);
    }
  }

  /** The formatter writes before every token exactly the whitespace of the rule. */
  lemma {:induction false} GapsByTheRule(u: Runes, ts: seq<Token>)
    requires Lawful(u) && AllFine(ts)
    ensures Gaps(All(u, ts, START, 0).out, "") == GapsTo(u, ts, |ts|)
  {
    hide Lawful, All, AllFine;
    AllTracks(u, ts, START, 0);
  }

  /** The formatter starts a line exactly where the rule says. */
  lemma {:induction false} LinesByTheRule(u: Runes, ts: seq<Token>)
    requires Lawful(u) && AllFine(ts)
    ensures Marks(All(u, ts, START, 0).out, false) == Breaks(u, ts)
  {
    hide Lawful, All, Marks, Gaps, GapsTo, BreaksTo, BreaksBefore, GapBefore, Written, AllFine;
    var out := All(u, ts, START, 0).out;
    GapsByTheRule(u, ts);
    EveryTokenOnce(u, ts);
    forall k | 0 <= k < |ts|
      ensures Marks(out, false)[k] == Breaks(u, ts)[k]
    {
      MarksOfGaps(out, "", k);
      GapsAt(u, ts, |ts|, k);
      BreaksAt(u, ts, |ts|, k);
      BreakIsGap(u, ts, k);
    }
  }

  // ----- the text -----

  /** The first i tokens with the whitespace of the rule before each of them. */
  function LaidOut(u: Runes, ts: seq<Token>, i: nat): string
    requires i <= |ts|
  {
    if i == 0 then "" else LaidOut(u, ts, i - 1) + GapBefore(u, ts, i - 1) + ts[i - 1].s
  }

  function Interleaved(gs: seq<string>, ts: seq<Token>): string
    requires |gs| == |ts|
  {
    if ts == [] then "" else Interleaved(gs[..|gs| - 1], ts[..|ts| - 1]) + gs[|gs| - 1] + ts[|ts| - 1].s
  }

  lemma {:induction false} FlatIs(ps: seq<Piece>)
    ensures Flat(ps) == Interleaved(Gaps(ps, ""), Written(ps)) + Tail(ps, "")
    decreases |ps|
  {
    hide Flat, Written, Gaps, Tail;
    if ps == [] {
      NothingWritten();
    } else {
      var n := |ps| - 1;
      assert ps == ps[..n] + [ps[n]];
      FlatIs(ps[..n]);
      FlatSnoc(ps[..n], ps[n]);
      GapsSnoc(ps[..n], ps[n], "");
      WrittenSnoc(ps[..n], ps[n]);
      var gs, ts := Gaps(ps[..n], ""), Written(ps[..n]);
      if ps[n].Tok? {
        assert (gs + [Tail(ps[..n], "")])[..|gs|] == gs && (ts + [ps[n].t])[..|ts|] == ts;
      } else {
        assert gs + [] == gs && ts + [] == ts;
      }
    }
  }

  lemma {:induction false} NothingWritten()
    ensures Flat([]) == "" && Written([]) == [] && Gaps([], "") == [] && Tail([], "") == ""
  {
  }

  lemma {:induction false} InterleavedIs(u: Runes, ts: seq<Token>, i: nat)
    requires i <= |ts|
    ensures Interleaved(GapsTo(u, ts, i), ts[..i]) == LaidOut(u, ts, i)
    decreases i
  {
    hide GapBefore;
    if i > 0 {
      InterleavedIs(u, ts, i - 1);
      assert ts[..i][..i - 1] == ts[..i - 1] && GapsTo(u, ts, i)[..i - 1] == GapsTo(u, ts, i - 1);
    }
  }

  lemma {:induction false} TailIsBlank(e: Edge, ps: seq<Piece>, g: string)
    requires Laid(e, ps) && forall i | 0 <= i < |g| :: g[i] == ' ' || g[i] == '\n'
    ensures forall i | 0 <= i < |Tail(ps, g)| :: Tail(ps, g)[i] == ' ' || Tail(ps, g)[i] == '\n'
    decreases |ps|
  {
    hide Glued, Touches;
    if ps != [] {
      TailIsBlank(SqlFormatTokens.Past(e, ps[0]), ps[1..], if ps[0].Tok? then "" else g + ps[0].g);
    }
  }

  lemma {:induction false} TrimLeftConcat(u: Runes, s: string, g: string)
    ensures TrimLeft(u, s + g) == if TrimLeft(u, s) == [] then TrimLeft(u, g) else TrimLeft(u, s) + g
  {
    if s == [] {
      assert s + g == g;
    } else if u.isSpace(s[0]) {
      assert (s + g)[1..] == s[1..] + g;
      TrimLeftConcat(u, s[1..], g);
    }
  }

  lemma {:induction false} TrimTail(u: Runes, s: string, g: string)
    requires Lawful(u) && forall i | 0 <= i < |g| :: g[i] == ' ' || g[i] == '\n'
    ensures Trim(u, s + g) == Trim(u, s)
  {
    hide TrimLeft, TrimRight;
    TrimLeftConcat(u, s, g);
    TrimLeftBlank(u, g, []);
    assert g + [] == g;
    TrimRightSpaces(u, TrimLeft(u, s), g);
    assert TrimLeft(u, []) == [] by { TrimLeftBlank(u, [], []); TrimOfNothing(u); }
  }

  lemma {:induction false} TrimOfNothing(u: Runes)
    ensures TrimLeft(u, []) == []
  {
  }

  /** The whole text of a formatted statement: its tokens, each after the line break and
      indentation, the blank or the nothing that the rule gives it, trimmed at both ends. */
  lemma {:induction false} FormatByTheRule(u: Runes, q: string)
    requires Lawful(u)
    ensures var ts := Tokens(u, q); Format(u, q) == Trim(u, LaidOut(u, ts, |ts|))
  {
    hide Lawful, Tokens, All, Gaps, GapsTo, Written, Flat, Tail, Interleaved, LaidOut, Trim, Laid, Readable;
    var ts := Tokens(u, q);
    var out := All(u, ts, START, 0).out;
    TokensAreReadable(u, q);
    ReadableIsFine(u, ts);
    GapsByTheRule(u, ts);
    EveryTokenOnce(u, ts);
    FormattedIsLaid(u, ts);
    FlatIs(out);
    InterleavedIs(u, ts, |ts|);
    assert ts[..|ts|] == ts;
    TailIsBlank(OPEN_EDGE, out, "");
    TrimTail(u, LaidOut(u, ts, |ts|), Tail(out, ""));
  }
}
