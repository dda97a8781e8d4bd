/**
  Inputs whose formatted text does not read the same: a cast beside an operator, a quote
  that is never closed, a line comment, an apostrophe in one. Each shows that a condition of
  the laws on the formatted text is needed.
 */
module SqlFormatLimits {
  import opened SqlTokens
  import opened SqlFormat
  import opened SqlFormatTokens
  import opened SqlFormatRoundTrip
  import opened SqlFormatText
  import opened SqlComments
  import opened SqlLines
  import opened SqlCommentLaws

  const PLUS := Token("+", Operator)
  const CAST := Token("::", Operator)

  lemma {:induction false} Operators()
    ensures IsOperator(':') && IsOperator('+')
  {
  }

  lemma {:induction false} NoOperator(c: char)
    requires c == ' ' || c == '_' || c == '$'
    ensures !IsOperator(c)
  {
  }

  lemma {:induction false} OperatorIsWhole(u: Runes, s: string)
    requires Lawful(u) && s != [] && IsOperator(s[0]) && OperatorRun(s[1..]) == |s| - 1
    ensures Whole(u, Token(s, Operator))
  {
    hide IsOperator;
    OperatorRunes(s[0]);
    MarksAreNoWords(u, s[0]);
  }

  /** "+ ::" comes back as one operator. */
  lemma {:induction false} CastBesideOperator(u: Runes)
    requires Lawful(u)
    ensures Tokens(u, Format(u, "+ ::")) != Tokens(u, "+ ::")
  {
    hide Format, IsOperator, Tokens, Whole, LosesBlanks;
    Operators();
    assert "+"[1..] == "" && "::"[1..] == ":" && ":"[1..] == "";
    assert OperatorRun("") == 0 && OperatorRun(":") == 1;
    OperatorIsWhole(u, "+");
    OperatorIsWhole(u, "::");
    ReadsBack(u, PLUS, " ::");
    BlanksSkipped(u, " ", "::");
    ReadsBack(u, CAST, "");
    NoTokens(u);
    assert "+" + " ::" == "+ ::" && " " + "::" == " ::" && "::" + "" == "::";
    var ts := Tokens(u, "+ ::");
    assert ts == [PLUS, CAST];
    assert Glued(ts[0], ts[1]);
    FormatKeepsTokens(u, "+ ::");
  }

  /** The blank at the end of a quote that is never closed is lost. */
  lemma {:induction false} UnclosedQuoteLosesBlanks(u: Runes)
    requires Lawful(u)
    ensures Tokens(u, Format(u, "' ")) != Tokens(u, "' ")
  {
    hide Format, Tokens;
    UnclosedToken(u);
    assert " "[1..] == "";
    assert !QuoteCloses('\'', " ");
    BlanksAreSpace(u);
    FormatKeepsTokens(u, "' ");
  }

  lemma {:induction false} UnclosedToken(u: Runes)
    requires Lawful(u)
    ensures Tokens(u, "' ") == [Token("' ", Literal)]
  {
    hide IsOperator;
    var q := "' ";
    NoSpaceQuote(u, '\'');
    assert q[1..] == " " && " "[1..] == "";
    assert QuoteRun('\'', " ") == 1;
    assert q[..2] == q && q[2..] == "";
    NoTokens(u);
    assert First(u, q) == (Literal, 2);
  }

  // ----- statements on one line -----

  /** A token that breaks no line and opens no clause. */
  ghost predicate Plain(u: Runes, t: Token) {
    && t.kind != Open && t.kind != Close && t.kind != Comma
    && t.s != "" && t.s != "\n"
    && (t.kind == Kind.Word ==> forall kw | kw in CLAUSES && kw != [] :: !u.sameFold(t.s, kw[0]))
  }

  /** No clause starts with a word of one rune. */
  lemma {:induction false} ShortIsPlain(u: Runes, t: Token)
    requires Lawful(u) && t.kind == Kind.Word && |t.s| == 1 && t.s != "\n"
    ensures Plain(u, t)
  {
    forall kw | kw in CLAUSES && kw != []
      ensures !u.sameFold(t.s, kw[0])
    {
      ClausesAreLong(kw);
    }
  }

  lemma {:induction false} ClausesAreLong(kw: seq<string>)
    requires kw in CLAUSES
    ensures kw != [] && |kw[0]| > 1
  {
  }

  ghost predicate AllPlain(u: Runes, ts: seq<Token>) {
    forall i | 0 <= i < |ts| :: Plain(u, ts[i])
  }

  lemma {:induction false} StandingStarts(u: Runes, ts: seq<Token>, i: nat, kw: seq<string>)
    requires kw != []
    ensures StandsAt(u, ts, i, kw) ==> Is(u, ts[i], kw[0])
  {
    if StandsAt(u, ts, i, kw) {
      assert Is(u, ts[i + 0], kw[0]);
    }
  }

  lemma {:induction false} NoClause(u: Runes, ts: seq<Token>, i: nat, kws: seq<seq<string>>)
    requires i < |ts| && Plain(u, ts[i]) && forall kw | kw in kws :: kw in CLAUSES
    ensures FirstStanding(u, ts, i, kws) == []
  {
    hide StandsAt;
    if kws != [] {
      assert kws[0] in CLAUSES;
      if kws[0] != [] {
        StandingStarts(u, ts, i, kws[0]);
      }
      NoClause(u, ts, i, kws[1..]);
    }
  }

  /** A cast is written without blanks around it. */
  function Blank(prev: Token, t: Token): string {
    if prev.s == "::" || t.s == "::" then "" else " "
  }

  /** Tokens after prev, with blanks between. */
  function Spread(prev: Token, ts: seq<Token>): string
    decreases |ts|
  {
    if ts == [] then "" else Blank(prev, ts[0]) + ts[0].s + Spread(ts[0], ts[1..])
  }

  /** The last token written is on the current line, and a blank may follow it. */
  predicate MidLine(st: State) {
    Flat(st.out) != [] && st.last.s != "\n" && st.last.kind != Open
  }

  lemma {:induction false} WriteOnLine(u: Runes, st: State, t: Token, keyword: bool)
    requires Plain(u, t) && (MidLine(st) || st.out == [])
    ensures var w := Write(u, st, t, keyword);
            && MidLine(w) && w.last == t
            && Flat(w.out) == Flat(st.out) + (if st.out == [] then "" else Blank(st.last, t)) + t.s
  {
    hide IsKeyword, IsUpperKeyword, Flat;
    EmptyFlat();
    FlatSnoc(st.out, Gap(" "));
    FlatSnoc(st.out + [Gap(" ")], Tok(t));
    FlatSnoc(st.out, Tok(t));
    assert st.out + [] == st.out;
  }

  lemma {:induction false} AdvanceOnLine(u: Runes, ts: seq<Token>, c: Cursor)
    requires AllPlain(u, ts) && c.i < |ts| && c.clause == "" && (MidLine(c.st) || c.st.out == [])
    ensures !AtEnd(ts, c.i)
    ensures var r := Advance(u, ts, c, 0, false);
            && MidLine(r.st) && r.i == c.i + 1 && r.clause == "" && r.st.last == ts[c.i]
            && Flat(r.st.out) == Flat(c.st.out) + (if c.st.out == [] then "" else Blank(c.st.last, ts[c.i])) + ts[c.i].s
  {
    hide Write, Newline, IsKeyword, StillBetween, MidLine, FirstStanding, Flat, Blank;
    var t := ts[c.i];
    assert Plain(u, t);
    NoClause(u, ts, c.i, CLAUSES);
    WriteOnLine(u, c.st, t, t.kind == Kind.Word && IsKeyword(u.upper(t.s)));
  }

  lemma {:induction false} LevelOnLine(u: Runes, ts: seq<Token>, c: Cursor)
    requires AllPlain(u, ts) && c.i <= |ts| && c.clause == "" && MidLine(c.st)
    ensures var r := Level(u, ts, c, 0, false);
            r.i == |ts| && Flat(r.st.out) == Flat(c.st.out) + Spread(c.st.last, ts[c.i..])
    decreases |ts| - c.i
  {
    hide Advance, Flat, MidLine, Plain, Spread, Blank;
    if c.i < |ts| {
      AdvanceOnLine(u, ts, c);
      var next := Advance(u, ts, c, 0, false);
      WrittenIsSomething(next.st, c.st);
      LevelOnLine(u, ts, next);
      SpreadFrom(c.st.last, ts, c.i);
    } else {
      assert ts[c.i..] == [] && Spread(c.st.last, []) == [] by { SpreadNothing(c.st.last); }
    }
  }

  lemma {:induction false} SpreadFrom(prev: Token, ts: seq<Token>, i: nat)
    requires i < |ts|
    ensures Spread(prev, ts[i..]) == Blank(prev, ts[i]) + ts[i].s + Spread(ts[i], ts[i + 1..])
  {
    assert ts[i..][1..] == ts[i + 1..];
  }

  lemma {:induction false} SpreadNothing(prev: Token)
    ensures Spread(prev, []) == []
  {
  }

  lemma {:induction false} WrittenIsSomething(st: State, before: State)
    ensures MidLine(st) ==> st.out != []
    ensures MidLine(before) ==> before.out != []
  {
  }

  /** Without parentheses, commas and clauses, everything goes on one line. */
  lemma {:induction false} OneLine(u: Runes, t: Token, ts: seq<Token>)
    requires AllPlain(u, [t] + ts)
    ensures Flat(All(u, [t] + ts, START, 0).out) == t.s + Spread(t, ts)
  {
    hide Advance, Flat, MidLine, Spread;
    var all := [t] + ts;
    var c := Cursor(START, 0, "", false);
    AdvanceOnLine(u, all, c);
    EmptyFlat();
    LevelOnLine(u, all, Advance(u, all, c, 0, false));
    assert all[1..] == ts;
  }

  // ----- tokens of the examples -----

  const DASHES := Token("--", Operator)
  const ONE := Token("_", Kind.Word)
  const TWO := Token("$", Kind.Word)
  const GLUED := Token("+::", Operator)

  lemma {:induction false} WordsAreWhole(u: Runes)
    requires Lawful(u)
    ensures Whole(u, ONE) && Whole(u, TWO)
  {
    hide IsOperator;
    MarksAreNoWords(u, '_');
    MarksAreNoWords(u, '$');
    assert IsWord(u, '_') && IsWord(u, '$');
    assert "_"[1..] == "" && "$"[1..] == "";
    assert WordRun(u, "_") == 1 && WordRun(u, "$") == 1;
  }

  lemma {:induction false} DashesAreWhole(u: Runes)
    requires Lawful(u)
    ensures Whole(u, DASHES)
  {
    hide IsOperator;
    DashIsOperator();
    assert "--"[1..] == "-" && "-"[1..] == "";
    assert OperatorRun("-") == 1;
    OperatorIsWhole(u, "--");
  }

  /** A text that starts with the token, and goes on with something else. */
  lemma {:induction false} StartsWith(u: Runes, t: Token, rest: string)
    requires Lawful(u) && Whole(u, t) && Bounded(u, t, rest)
    ensures Tokens(u, t.s + rest) == [t] + Tokens(u, rest) && Tokens(u, " " + (t.s + rest)) == [t] + Tokens(u, rest)
  {
    hide Lawful, Tokens, Whole, Bounded;
    ReadsBack(u, t, rest);
    BlanksSkipped(u, " ", t.s + rest);
  }

  lemma {:induction false} Bounds(u: Runes, rest: string)
    requires Lawful(u) && (rest == "" || rest[0] == ' ' || rest[0] == '\n')
    ensures Bounded(u, ONE, rest) && Bounded(u, TWO, rest) && Bounded(u, PLUS, rest) && Bounded(u, CAST, rest)
    ensures Bounded(u, GLUED, rest) && Bounded(u, DASHES, rest)
  {
    hide Lawful, IsOperator;
    BlanksAreSpace(u);
    if rest != "" {
      MarksAreNoWords(u, rest[0]);
    }
  }

  // ----- a cast that is spaced again -----

  const CASTS := "_ + :: _"

  lemma {:induction false} CastTokens(u: Runes)
    requires Lawful(u)
    ensures Tokens(u, CASTS) == [ONE, PLUS, CAST, ONE]
  {
    hide Lawful, Tokens, Whole, IsOperator, Bounded, OperatorRun;
    OperatorsAreWhole(u);
    WordsAreWhole(u);
    NoTokens(u);
    Bounds(u, "");
    Bounds(u, " _");
    Bounds(u, " :: _");
    Bounds(u, " + :: _");
    StartsWith(u, ONE, "");
    StartsWith(u, CAST, " _");
    StartsWith(u, PLUS, " :: _");
    StartsWith(u, ONE, " + :: _");
    assert "_" + "" == "_" && " " + "_" == " _" && "::" + " _" == ":: _" && " " + ":: _" == " :: _";
    assert "+" + " :: _" == "+ :: _" && " " + "+ :: _" == " + :: _" && "_" + " + :: _" == CASTS;
  }

  lemma {:induction false} GluedTokens(u: Runes)
    requires Lawful(u)
    ensures Tokens(u, "_ +::_") == [ONE, GLUED, ONE]
  {
    hide Lawful, Tokens, Whole, IsOperator, Bounded, OperatorRun;
    OperatorsAreWhole(u);
    WordsAreWhole(u);
    NoTokens(u);
    Bounds(u, "");
    Bounds(u, " +::_");
    StartsWith(u, ONE, "");
    GluedBeforeWord(u);
    StartsWith(u, GLUED, "_");
    StartsWith(u, ONE, " +::_");
    assert "_" + "" == "_" && "+::" + "_" == "+::_" && " " + "+::_" == " +::_" && "_" + " +::_" == "_ +::_";
  }

  lemma {:induction false} OperatorsAreWhole(u: Runes)
    requires Lawful(u)
    ensures Whole(u, PLUS) && Whole(u, CAST) && Whole(u, GLUED)
  {
    hide Lawful, Whole, IsOperator;
    Operators();
    assert "+"[1..] == "" && "::"[1..] == ":" && ":"[1..] == "" && "+::"[1..] == "::";
    assert OperatorRun("") == 0 && OperatorRun(":") == 1 && OperatorRun("::") == 2;
    OperatorIsWhole(u, "+");
    OperatorIsWhole(u, "::");
    OperatorIsWhole(u, "+::");
  }

  lemma {:induction false} GluedBeforeWord(u: Runes)
    ensures Bounded(u, GLUED, "_")
  {
    hide IsOperator;
    NoOperator('_');
  }

  /** Formatting a formatted statement can change it: the glued operator gets a blank. */
  lemma {:induction false} CastIsSpacedAgain(u: Runes)
    requires Lawful(u)
    ensures Format(u, CASTS) == "_ +::_" && Format(u, "_ +::_") == "_ +:: _"
  {
    hide Lawful, Tokens, All, Flat, IsOperator, Spread, Plain, Trim;
    CastTokens(u);
    GluedTokens(u);
    ExamplesArePlain(u);
    var a, b := [PLUS, CAST, ONE], [GLUED, ONE];
    assert [ONE] + a == [ONE, PLUS, CAST, ONE] && [ONE] + b == [ONE, GLUED, ONE];
    OneLine(u, ONE, a);
    OneLine(u, ONE, b);
    SpreadThree(ONE, PLUS, CAST, ONE);
    SpreadTwo(ONE, GLUED, ONE);
    assert "_" + (" " + "+" + ("" + "::" + ("" + "_"))) == "_ +::_";
    assert "_" + (" " + "+::" + (" " + "_")) == "_ +:: _";
    EndsAreNoSpace(u);
    TrimmedAlready(u, "_ +::_");
    TrimmedAlready(u, "_ +:: _");
  }

  lemma {:induction false} SpreadTwo(p: Token, a: Token, b: Token)
    ensures Spread(p, [a, b]) == Blank(p, a) + a.s + (Blank(a, b) + b.s)
  {
    assert [a, b][1..] == [b] && [b][1..] == [];
    assert Spread(b, []) == "";
    assert Spread(a, [b]) == Blank(a, b) + b.s + "";
  }

  lemma {:induction false} SpreadThree(p: Token, a: Token, b: Token, c: Token)
    ensures Spread(p, [a, b, c]) == Blank(p, a) + a.s + (Blank(a, b) + b.s + (Blank(b, c) + c.s))
  {
    hide Blank;
    assert [a, b, c][1..] == [b, c];
    SpreadTwo(a, b, c);
  }

  lemma {:induction false} ExamplesArePlain(u: Runes)
    requires Lawful(u)
    ensures Plain(u, ONE) && Plain(u, TWO) && Plain(u, PLUS) && Plain(u, CAST) && Plain(u, GLUED) && Plain(u, DASHES)
  {
    hide Lawful;
    ShortIsPlain(u, ONE);
    ShortIsPlain(u, TWO);
  }

  lemma {:induction false} TrimmedAlready(u: Runes, text: string)
    requires Lawful(u) && text != "" && !u.isSpace(text[0]) && !u.isSpace(text[|text| - 1])
    ensures Trim(u, text) == text
  {
  }

  // ----- a line comment -----

  /** A comment and a statement on the next line. */
  const COMMENTED := "--_\n$"

  lemma {:induction false} CommentedTokens(u: Runes)
    requires Lawful(u)
    ensures Tokens(u, COMMENTED) == [DASHES, ONE, TWO] && Tokens(u, "\n$") == [TWO]
  {
    hide IsOperator, Tokens, Whole, Lawful, Bounded;
    WordsAreWhole(u);
    DashesAreWhole(u);
    NoTokens(u);
    Bounds(u, "");
    Bounds(u, "\n$");
    StartsWith(u, TWO, "");
    BlanksSkipped(u, "\n", "$");
    StartsWith(u, ONE, "\n$");
    DashesBeforeWord(u);
    StartsWith(u, DASHES, "_\n$");
    assert "$" + "" == "$" && "\n" + "$" == "\n$" && "_" + "\n$" == "_\n$" && "--" + "_\n$" == COMMENTED;
  }

  lemma {:induction false} DashesBeforeWord(u: Runes)
    ensures Bounded(u, DASHES, "_\n$")
  {
    hide IsOperator;
    NoOperator('_');
  }

  /** What a reader finds after a comment that starts the text. */
  lemma {:induction false} ReadsNextLine(u: Runes, s: string, rest: string)
    requires '\n' !in s && (rest == [] || rest[0] == '\n')
    ensures Read(u, "--" + (s + rest)) == Read(u, rest)
  {
    hide Uncommented, ToLineEnd, Tokens;
    CommentDropped(s + rest);
    LineEndAfter(s, rest);
    LineEndHere(rest);
  }

  /** The comment takes the statement with it: "--_\n$" is one line after formatting. */
  lemma {:induction false} LineCommentSwallowsNextLine(u: Runes)
    requires Lawful(u)
    ensures Read(u, COMMENTED) == [TWO]
    ensures Read(u, Format(u, COMMENTED)) == []
  {
    hide IsOperator, Tokens, Lawful, All, Flat, Read, Spread, Plain, Trim;
    CommentedTokens(u);
    ReadsNextLine(u, "_", "\n$");
    assert "_" + "\n$" == "_\n$" && "--" + "_\n$" == COMMENTED;
    ReadsAsTokens(u, "\n$");
    ExamplesArePlain(u);
    assert [DASHES] + [ONE, TWO] == [DASHES, ONE, TWO];
    OneLine(u, DASHES, [ONE, TWO]);
    SpreadTwo(DASHES, ONE, TWO);
    assert "--" + (" " + "_" + (" " + "$")) == "-- _ $";
    EndsAreNoSpace(u);
    TrimmedAlready(u, "-- _ $");
    ReadsNextLine(u, " _ $", "");
    assert " _ $" + "" == " _ $" && "--" + " _ $" == "-- _ $";
    ReadsNothing(u);
  }

  lemma {:induction false} ReadsNothing(u: Runes)
    ensures Read(u, "") == []
  {
  }

  lemma {:induction false} EndsAreNoSpace(u: Runes)
    requires Lawful(u)
    ensures !u.isSpace('-') && !u.isSpace('_') && !u.isSpace('$') && !u.isSpace('\'')
  {
    hide IsOperator;
    DashIsOperator();
    assert IsWord(u, '_') && IsWord(u, '$') && IsMark('\'');
  }

  // ----- an apostrophe in a comment -----

  /** A comment that holds an apostrophe, and a literal on the next line. */
  const APOSTROPHE := "--'\n'_'"

  const BROKEN := Token("'\n'", Literal)
  const OPEN_QUOTE := Token("'", Literal)

  lemma {:induction false} LiteralCloses(b: string)
    requires '\'' !in b
    ensures QuoteRun('\'', b + "'") == |b| + 1 && QuoteCloses('\'', b + "'")
  {
    if b == [] {
      assert b + "'" == "'" && "'"[1..] == "";
    } else {
      assert b[0] in b && (b + "'")[1..] == b[1..] + "'";
      LiteralCloses(b[1..]);
    }
  }

  lemma {:induction false} LiteralIsWhole(u: Runes, b: string)
    requires Lawful(u) && '\'' !in b
    ensures Whole(u, Token("'" + (b + "'"), Literal)) && Proper(u, OPEN_QUOTE)
  {
    hide IsOperator;
    NoSpaceQuote(u, '\'');
    LiteralCloses(b);
    assert ("'" + (b + "'"))[1..] == b + "'" && "'"[1..] == "";
  }

  lemma {:induction false} QuotesAreProper(u: Runes)
    requires Lawful(u)
    ensures Whole(u, BROKEN) && Proper(u, OPEN_QUOTE)
    ensures Whole(u, Token("'_'", Literal)) && Whole(u, Token("' _ '", Literal))
  {
    hide Lawful, Whole, Proper;
    LiteralIsWhole(u, "\n");
    LiteralIsWhole(u, "_");
    LiteralIsWhole(u, " _ ");
    assert "'" + ("\n" + "'") == "'\n'" && "'" + ("_" + "'") == "'_'" && "'" + (" _ " + "'") == "' _ '";
  }

  lemma {:induction false} QuoteBounds(u: Runes)
    requires Lawful(u)
    ensures Bounded(u, DASHES, "'\n'_'") && Bounded(u, BROKEN, "_'") && Bounded(u, ONE, "'")
  {
    hide Lawful, IsOperator;
    MarksAreNoWords(u, '\'');
    QuoteIsNoMark();
  }

  lemma {:induction false} QuoteIsNoMark()
    ensures !IsOperator('\'')
  {
  }

  lemma {:induction false} ApostropheTokens(u: Runes)
    requires Lawful(u)
    ensures Tokens(u, APOSTROPHE) == [DASHES, BROKEN, ONE, OPEN_QUOTE]
    ensures Tokens(u, "\n'_'") == [Token("'_'", Literal)] && Tokens(u, "\n' _ '") == [Token("' _ '", Literal)]
  {
    hide IsOperator, Tokens, Whole, Lawful, Bounded, Proper;
    WordsAreWhole(u);
    DashesAreWhole(u);
    QuotesAreProper(u);
    QuoteBounds(u);
    ReadsAlone(u, OPEN_QUOTE);
    StartsWith(u, ONE, "'");
    StartsWith(u, BROKEN, "_'");
    StartsWith(u, DASHES, "'\n'_'");
    assert "_" + "'" == "_'" && "'\n'" + "_'" == "'\n'_'" && "--" + "'\n'_'" == APOSTROPHE;
    WholeAlone(u, Token("'_'", Literal));
    WholeAlone(u, Token("' _ '", Literal));
    BlanksSkipped(u, "\n", "'_'");
    BlanksSkipped(u, "\n", "' _ '");
    assert "\n" + "'_'" == "\n'_'" && "\n" + "' _ '" == "\n' _ '";
  }

  lemma {:induction false} WholeAlone(u: Runes, t: Token)
    requires Whole(u, t)
    ensures Tokens(u, t.s) == [t]
  {
    hide Proper;
    ReadsAlone(u, t);
  }

  /** The literal on the next line is changed: the apostrophe makes the formatter take it for
      code between two literals. */
  lemma {:induction false} ApostropheChangesLiteral(u: Runes)
    requires Lawful(u)
    ensures NoGlue(Tokens(u, APOSTROPHE)) && !LosesBlanks(u, Tokens(u, APOSTROPHE))
    ensures Read(u, APOSTROPHE) == [Token("'_'", Literal)]
    ensures Read(u, Format(u, APOSTROPHE)) == [Token("' _ '", Literal)]
  {
    hide IsOperator, Tokens, Lawful, All, Flat, Read, Spread, Plain, Trim;
    ApostropheTokens(u);
    ReadsNextLine(u, "'", "\n'_'");
    assert "'" + "\n'_'" == "'\n'_'" && "--" + "'\n'_'" == APOSTROPHE;
    ReadsAsTokens(u, "\n'_'");
    ReadsAsTokens(u, "\n' _ '");
    ExamplesArePlain(u);
    QuotesArePlain(u);
    assert [DASHES] + [BROKEN, ONE, OPEN_QUOTE] == [DASHES, BROKEN, ONE, OPEN_QUOTE];
    OneLine(u, DASHES, [BROKEN, ONE, OPEN_QUOTE]);
    SpreadThree(DASHES, BROKEN, ONE, OPEN_QUOTE);
    assert "--" + (" " + "'\n'" + (" " + "_" + (" " + "'"))) == "-- '\n' _ '";
    EndsAreNoSpace(u);
    TrimmedAlready(u, "-- '\n' _ '");
    ReadsNextLine(u, " '", "\n' _ '");
    assert " '" + "\n' _ '" == " '\n' _ '" && "--" + " '\n' _ '" == "-- '\n' _ '";
  }

  lemma {:induction false} QuotesArePlain(u: Runes)
    ensures Plain(u, BROKEN) && Plain(u, OPEN_QUOTE)
  {
  }
}
