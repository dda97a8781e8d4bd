/**
  The tokens of a statement, said without a tokenizer: the form each kind of token has, and
  that a text is its tokens with whitespace between, none of which could have gone on.
 */
module SqlTokenForms {
  import opened SqlTokens
  import opened SqlFormatRoundTrip

  // ----- forms -----

  predicate InWord(u: Runes, c: char) {
    u.isLetterOrDigit(c) || c in "_$."
  }

  predicate InOperator(c: char) {
    c in "<>=!|@&:+-*/%~^?#"
  }

  function Apostrophes(s: string): nat {
    if s == [] then 0 else (if s[0] == '\'' then 1 else 0) + Apostrophes(s[1..])
  }

  /** After an even number of apostrophes a literal can only go on with another one. */
  predicate IsLiteral(s: string) {
    s != [] && s[0] == '\'' && forall k | 0 < k < |s| && Apostrophes(s[..k]) % 2 == 0 :: s[k] == '\''
  }

  /** Nothing but the last rune is the quote again. */
  predicate IsQuoted(s: string) {
    s != [] && s[0] in {'"', '`'} && forall k | 0 < k < |s| - 1 :: s[k] != s[0]
  }

  predicate IsOther(u: Runes, s: string) {
    |s| == 1 && !u.isSpace(s[0]) && !InWord(u, s[0]) && !InOperator(s[0]) && s[0] !in "'\"`(),"
  }

  /** What a token of each kind looks like. */
  predicate Formed(u: Runes, t: Token) {
    match t.kind
    case Word => t.s != [] && forall k | 0 <= k < |t.s| :: InWord(u, t.s[k])
    case Literal => IsLiteral(t.s)
    case Quoted => IsQuoted(t.s)
    case Operator => IsOther(u, t.s) || (t.s != [] && forall k | 0 <= k < |t.s| :: InOperator(t.s[k]))
    case Open => t.s == "("
    case Close => t.s == ")"
    case Comma => t.s == ","
  }

  /** The quote of a literal or quoted identifier is closed. */
  predicate Complete(t: Token) {
    match t.kind
    case Literal => Apostrophes(t.s) % 2 == 0
    case Quoted => |t.s| > 1 && t.s[|t.s| - 1] == t.s[0]
    case _ => true
  }

  /** The token ends where it does: what follows could not have been part of it. */
  predicate EndsBefore(u: Runes, t: Token, rest: string) {
    rest == [] ||
    (Complete(t) &&
     match t.kind
     case Word => !InWord(u, rest[0])
     case Operator => !(t.s != [] && InOperator(t.s[0]) && InOperator(rest[0]))
     case Literal => rest[0] != '\''
     case _ => true)
  }

  ghost predicate AllSpace(u: Runes, g: string) {
    forall i | 0 <= i < |g| :: u.isSpace(g[i])
  }

  /** The text is these tokens, with whitespace around them. */
  ghost predicate Consists(u: Runes, rs: string, ts: seq<Token>)
    decreases |ts|, 1
  {
    exists n: nat :: ConsistsFrom(u, rs, ts, n)
  }

  /** The first token, or the end of the text, comes after n runes. */
  ghost predicate ConsistsFrom(u: Runes, rs: string, ts: seq<Token>, n: nat)
    decreases |ts|, 0
  {
    && n <= |rs| && AllSpace(u, rs[..n])
    && if ts == [] then n == |rs|
       else
         && Formed(u, ts[0]) && ts[0].s <= rs[n..] && EndsBefore(u, ts[0], rs[n + |ts[0].s|..])
         && Consists(u, rs[n + |ts[0].s|..], ts[1..])
  }

  lemma {:induction false} SameClasses(u: Runes, c: char)
    ensures InWord(u, c) == IsWord(u, c) && InOperator(c) == IsOperator(c)
    ensures IsMark(c) <==> InOperator(c) || c in "'\"`(),"
  {
  }

  lemma {:induction false} SameOperator(c: char)
    ensures InOperator(c) == IsOperator(c)
  {
  }

  // ----- runs -----

  lemma {:induction false} WholeWordRun(u: Runes, s: string)
    ensures WordRun(u, s) == |s| <==> forall k | 0 <= k < |s| :: InWord(u, s[k])
  {
    hide IsWord, InWord;
    if s != [] {
      SameClasses(u, s[0]);
      WholeWordRun(u, s[1..]);
      assert forall k | 0 < k < |s| :: s[k] == s[1..][k - 1];
      assert forall k | 0 <= k < |s[1..]| :: s[1..][k] == s[k + 1];
    }
  }

  lemma {:induction false} WholeOperatorRun(s: string)
    ensures OperatorRun(s) == |s| <==> forall k | 0 <= k < |s| :: InOperator(s[k])
  {
    hide IsOperator, InOperator;
    if s != [] {
      SameOperator(s[0]);
      WholeOperatorRun(s[1..]);
      assert forall k | 0 < k < |s| :: s[k] == s[1..][k - 1];
      assert forall k | 0 <= k < |s[1..]| :: s[1..][k] == s[k + 1];
    }
  }

  lemma {:induction false} WholeQuoteRun(q: char, s: string)
    requires q != '\''
    ensures QuoteRun(q, s) == |s| <==> forall k | 0 <= k < |s| - 1 :: s[k] != q
    ensures QuoteRun(q, s) == |s| ==> (QuoteCloses(q, s) <==> s != [] && s[|s| - 1] == q)
  {
    if s != [] && s[0] != q {
      WholeQuoteRun(q, s[1..]);
      assert forall k | 0 < k < |s| - 1 :: s[k] == s[1..][k - 1];
      assert forall k | 0 <= k < |s[1..]| - 1 :: s[1..][k] == s[k + 1];
    }
  }

  /** Inside a literal, after its opening apostrophe. */
  predicate Inside(s: string) {
    forall k | 0 <= k < |s| && Apostrophes(s[..k]) % 2 == 1 :: s[k] == '\''
  }

  lemma {:induction false} PrefixApostrophes(s: string, k: nat, n: nat)
    requires n <= k <= |s|
    ensures Apostrophes(s[..k]) == Apostrophes(s[..n]) + Apostrophes(s[n..][..k - n])
    decreases n
  {
    if n == 0 {
      assert s[0..] == s && s[..0] == [];
    } else {
      PrefixApostrophes(s[1..], k - 1, n - 1);
      assert s[..k][1..] == s[1..][..k - 1] && s[..n][1..] == s[1..][..n - 1] && s[1..][n - 1..] == s[n..];
    }
  }

  /** Going on after a part with an even number of apostrophes. */
  lemma {:induction false} InsideAfter(s: string, n: nat)
    requires n <= |s| && Apostrophes(s[..n]) % 2 == 0
    requires forall k | 0 <= k < n && Apostrophes(s[..k]) % 2 == 1 :: s[k] == '\''
    ensures Inside(s) <==> Inside(s[n..])
  {
    hide Apostrophes;
    if Inside(s) {
      forall k | 0 <= k < |s[n..]| && Apostrophes(s[n..][..k]) % 2 == 1
        ensures s[n..][k] == '\''
      {
        PrefixApostrophes(s, n + k, n);
      }
    }
    if Inside(s[n..]) {
      forall k | n <= k < |s| && Apostrophes(s[..k]) % 2 == 1
        ensures s[k] == '\''
      {
        PrefixApostrophes(s, k, n);
        assert s[n..][k - n] == s[k];
      }
    }
  }

  lemma {:induction false} FirstApostrophes(s: string)
    ensures Apostrophes(s[..0]) == 0
    ensures |s| > 0 ==> Apostrophes(s[..1]) == if s[0] == '\'' then 1 else 0
    ensures |s| > 1 && s[0] == '\'' && s[1] == '\'' ==> Apostrophes(s[..2]) == 2
  {
    if |s| > 0 {
      assert s[..1][1..] == [];
    }
    if |s| > 1 {
      assert s[..2][1..] == [s[1]] && [s[1]][1..] == [];
    }
  }

  lemma {:induction false} WholeLiteralRun(s: string)
    ensures QuoteRun('\'', s) == |s| <==> Inside(s)
    ensures QuoteRun('\'', s) == |s| ==> (QuoteCloses('\'', s) <==> Apostrophes(s) % 2 == 1)
    decreases |s|
  {
    hide Apostrophes, Inside;
    FirstApostrophes(s);
    if s == [] {
      assert Inside(s) && Apostrophes(s) == 0 by { NothingInside(); }
    } else if s[0] != '\'' {
      WholeLiteralRun(s[1..]);
      OneInside(s);
      InsideAfter(s, 1);
      PrefixApostrophes(s, |s|, 1);
      assert s[..|s|] == s && s[1..][..|s| - 1] == s[1..];
    } else if |s| > 1 && s[1] == '\'' {
      WholeLiteralRun(s[2..]);
      TwoInside(s);
      InsideAfter(s, 2);
      PrefixApostrophes(s, |s|, 2);
      assert s[..|s|] == s && s[2..][..|s| - 2] == s[2..];
    } else if |s| == 1 {
      assert Inside(s) by { OneInside(s); InsideOne(s); }
      assert s[..1] == s;
    } else {
      assert !Inside(s) by { NotInside(s); }
    }
  }

  lemma {:induction false} NothingInside()
    ensures Inside([]) && Apostrophes([]) == 0
  {
  }

  lemma {:induction false} OneInside(s: string)
    ensures forall k | 0 <= k < 1 && k < |s| && Apostrophes(s[..k]) % 2 == 1 :: s[k] == '\''
  {
    hide Apostrophes;
    FirstApostrophes(s);
  }

  lemma {:induction false} InsideOne(s: string)
    requires |s| == 1
    ensures Inside(s)
  {
    hide Apostrophes;
    FirstApostrophes(s);
  }

  lemma {:induction false} TwoInside(s: string)
    requires |s| > 1 && s[0] == s[1] == '\''
    ensures forall k | 0 <= k < 2 && Apostrophes(s[..k]) % 2 == 1 :: s[k] == '\''
  {
    hide Apostrophes;
    FirstApostrophes(s);
  }

  lemma {:induction false} NotInside(s: string)
    requires |s| > 1 && s[0] == '\'' && s[1] != '\''
    ensures !Inside(s)
  {
    hide Apostrophes;
    FirstApostrophes(s);
    assert Apostrophes(s[..1]) % 2 == 1;
  }

  lemma {:induction false} LiteralIs(s: string)
    requires s != [] && s[0] == '\''
    ensures IsLiteral(s) <==> Inside(s[1..])
    ensures Apostrophes(s) == 1 + Apostrophes(s[1..])
  {
    var r := s[1..];
    forall k | 0 < k < |s|
      ensures Apostrophes(s[..k]) == 1 + Apostrophes(r[..k - 1]) && s[k] == r[k - 1]
    {
      assert s[..k][1..] == r[..k - 1];
    }
    assert forall k | 0 <= k < |r| :: Apostrophes(s[..k + 1]) == 1 + Apostrophes(r[..k]) && s[k + 1] == r[k];
  }

  // ----- the tokenizer makes exactly these -----

  lemma {:induction false} ProperQuote(u: Runes, t: Token)
    requires t.s != [] && IsQuote(t.s[0])
    ensures First(u, t.s) == (t.kind, |t.s|) <==> Formed(u, t) && (t.kind == Literal || t.kind == Quoted)
    ensures First(u, t.s) == (t.kind, |t.s|) ==> (Closed(t) <==> Complete(t))
  {
    hide IsOperator, IsWord, Inside, Apostrophes, IsLiteral, QuoteRun, QuoteCloses;
    if t.s[0] == '\'' {
      WholeLiteralRun(t.s[1..]);
      LiteralIs(t.s);
      NoLiteral(t.s);
    } else {
      WholeQuoteRun(t.s[0], t.s[1..]);
      NoLiteral(t.s);
      assert forall k | 0 <= k < |t.s| - 2 :: t.s[1..][k] == t.s[k + 1];
      assert forall k | 0 < k < |t.s| - 1 :: t.s[k] == t.s[1..][k - 1];
    }
  }

  lemma {:induction false} NoLiteral(s: string)
    requires s != []
    ensures s[0] == '\'' <== IsLiteral(s)
  {
  }

  lemma {:induction false} ProperPlain(u: Runes, t: Token)
    requires Lawful(u) && t.s != [] && !IsQuote(t.s[0])
    ensures Proper(u, t) <==> Formed(u, t)
  {
    hide IsOperator, InOperator, Lawful, Apostrophes, IsWord, InWord;
    SameClasses(u, t.s[0]);
    WholeWordRun(u, t.s);
    WholeOperatorRun(t.s[1..]);
    assert forall k | 0 < k < |t.s| :: t.s[k] == t.s[1..][k - 1];
    assert forall k | 0 <= k < |t.s| - 1 :: t.s[1..][k] == t.s[k + 1];
    MarksAreNoWords(u, t.s[0]);
    if IsOperator(t.s[0]) {
      OperatorRunes(t.s[0]);
    }
  }

  /** Reading the text of a token gives the token, if and only if it has the form of its
      kind. */
  lemma {:induction false} ProperIsFormed(u: Runes, t: Token)
    requires Lawful(u)
    ensures Proper(u, t) <==> Formed(u, t)
    ensures Proper(u, t) ==> (Closed(t) <==> Complete(t))
  {
    hide IsOperator, Lawful, Apostrophes, First, QuoteCloses, IsLiteral;
    if t.s == [] {
      assert !Formed(u, t) by { EmptyIsNone(u, t); }
    } else if IsQuote(t.s[0]) {
      ProperQuote(u, t);
      QuoteStartsNothingElse(u, t);
      NoSpaceQuote(u, t.s[0]);
    } else {
      ProperPlain(u, t);
      PlainStarts(u, t);
    }
  }

  lemma {:induction false} EmptyIsNone(u: Runes, t: Token)
    requires t.s == []
    ensures !Formed(u, t)
  {
  }

  lemma {:induction false} QuoteStartsNothingElse(u: Runes, t: Token)
    requires Lawful(u) && t.s != [] && IsQuote(t.s[0])
    ensures Formed(u, t) ==> t.kind == Literal || t.kind == Quoted
  {
    hide Lawful, IsLiteral, IsQuoted, IsWord, InWord, IsOperator, InOperator, IsQuote;
    SameClasses(u, t.s[0]);
    MarksAreNoWords(u, t.s[0]);
    QuoteIsMark(t.s[0]);
  }

  lemma {:induction false} QuoteIsMark(c: char)
    requires IsQuote(c)
    ensures IsMark(c) && !IsOperator(c) && c != '(' && c != ')' && c != ','
  {
  }

  lemma {:induction false} PlainStarts(u: Runes, t: Token)
    requires t.s != [] && !IsQuote(t.s[0])
    ensures Formed(u, t) ==> t.kind != Literal && t.kind != Quoted
  {
  }

  lemma {:induction false} SpacesSkipped(u: Runes, rs: string, n: nat)
    requires n <= |rs| && AllSpace(u, rs[..n])
    ensures Tokens(u, rs) == Tokens(u, rs[n..])
    decreases n
  {
    hide First;
    if n > 0 {
      assert rs[..n][0] == rs[0] && rs[1..][..n - 1] == rs[..n][1..] && rs[1..][n - 1..] == rs[n..];
      SpacesSkipped(u, rs[1..], n - 1);
    } else {
      assert rs[0..] == rs;
    }
  }

  /** What follows a token that the tokenizer made, and why it ends there. */
  lemma {:induction false} FirstEnds(u: Runes, rs: string)
    requires Lawful(u) && rs != [] && !u.isSpace(rs[0])
    ensures var (kind, n) := First(u, rs); EndsBefore(u, Token(rs[..n], kind), rs[n..])
  {
    hide Lawful, IsOperator, InOperator, IsWord, InWord, Apostrophes, Complete, First, Formed, Proper, Closed;
    var (kind, n) := First(u, rs);
    var t := Token(rs[..n], kind);
    if n < |rs| {
      SameClasses(u, rs[0]);
      SameClasses(u, rs[n]);
      FirstIsProper(u, rs);
      ProperIsFormed(u, t);
      FirstIsClosed(u, rs);
      FirstStops(u, rs);
    }
  }

  lemma {:induction false} WordRunStops(u: Runes, rs: string)
    ensures WordRun(u, rs) < |rs| ==> !IsWord(u, rs[WordRun(u, rs)])
  {
    if rs != [] && IsWord(u, rs[0]) {
      WordRunStops(u, rs[1..]);
    }
  }

  lemma {:induction false} OperatorRunStops(rs: string)
    ensures OperatorRun(rs) < |rs| ==> !IsOperator(rs[OperatorRun(rs)])
  {
    hide IsOperator;
    if rs != [] && IsOperator(rs[0]) {
      OperatorRunStops(rs[1..]);
    }
  }

  lemma {:induction false} LiteralRunStops(rs: string)
    ensures var n := QuoteRun('\'', rs); n < |rs| ==> rs[n] != '\''
    decreases |rs|
  {
    if rs != [] {
      if rs[0] != '\'' {
        LiteralRunStops(rs[1..]);
      } else if |rs| > 1 && rs[1] == '\'' {
        LiteralRunStops(rs[2..]);
      }
    }
  }

  lemma {:induction false} FirstStops(u: Runes, rs: string)
    requires rs != [] && First(u, rs).1 < |rs|
    ensures var (kind, n) := First(u, rs);
            && (kind == Kind.Word ==> !IsWord(u, rs[n]))
            && (kind == Operator && IsOperator(rs[0]) ==> !IsOperator(rs[n]))
            && (kind == Literal ==> rs[n] != '\'')
  {
    hide IsOperator, QuoteRun;
    WordRunStops(u, rs);
    OperatorRunStops(rs[1..]);
    LiteralRunStops(rs[1..]);
  }

  /** The tokens of a text are the one way to split it so. */
  lemma {:induction false} TokensExactly(u: Runes, rs: string, ts: seq<Token>)
    requires Lawful(u)
    ensures Consists(u, rs, ts) <==> ts == Tokens(u, rs)
  {
    hide Lawful, Tokens, Consists;
    if Consists(u, rs, ts) {
      ConsistsReads(u, rs, ts);
    }
    TokensConsist(u, rs);
  }

  lemma {:induction false} ConsistsReads(u: Runes, rs: string, ts: seq<Token>)
    requires Lawful(u) && Consists(u, rs, ts)
    ensures ts == Tokens(u, rs)
    decreases |ts|
  {
    hide Lawful, Tokens, Formed, EndsBefore, AllSpace;
    var n: nat :| ConsistsFrom(u, rs, ts, n);
    SpacesSkipped(u, rs, n);
    if ts == [] {
      NoTokens(u);
    } else {
      var t, rest := ts[0], rs[n + |ts[0].s|..];
      ConsistsReads(u, rest, ts[1..]);
      ProperIsFormed(u, t);
      EndIsRead(u, t, rest);
      assert rs[n..] == t.s + rest;
    }
  }

  lemma {:induction false} EndIsRead(u: Runes, t: Token, rest: string)
    requires Lawful(u) && Proper(u, t) && EndsBefore(u, t, rest) && (Closed(t) <==> Complete(t))
    ensures Tokens(u, t.s + rest) == [t] + Tokens(u, rest)
  {
    hide Lawful, First, Complete, Closed, IsOperator, InOperator, IsWord, InWord;
    SameClasses(u, t.s[0]);
    if rest != [] {
      SameClasses(u, rest[0]);
    }
    if rest == [] {
      assert t.s + rest == t.s && t.s[..|t.s|] == t.s && t.s[|t.s|..] == [];
    } else {
      ReadsBack(u, t, rest);
    }
  }

  lemma {:induction false} TokensConsist(u: Runes, rs: string)
    requires Lawful(u)
    ensures Consists(u, rs, Tokens(u, rs))
    decreases |rs|
  {
    hide Lawful, First, EndsBefore, Formed, Proper, Complete, Closed;
    if rs == [] {
      assert ConsistsFrom(u, rs, [], 0);
    } else if u.isSpace(rs[0]) {
      TokensConsist(u, rs[1..]);
      SpaceFirst(u, rs, Tokens(u, rs[1..]));
    } else {
      var (kind, n) := First(u, rs);
      var t := Token(rs[..n], kind);
      FirstIsProper(u, rs);
      ProperIsFormed(u, t);
      FirstEnds(u, rs);
      TokensConsist(u, rs[n..]);
      TokenFirst(u, rs, t, Tokens(u, rs[n..]));
    }
  }

  lemma {:induction false} SpaceFirst(u: Runes, rs: string, ts: seq<Token>)
    requires rs != [] && u.isSpace(rs[0]) && Consists(u, rs[1..], ts)
    ensures Consists(u, rs, ts)
  {
    hide EndsBefore, Formed;
    var r := rs[1..];
    var n: nat :| ConsistsFrom(u, r, ts, n);
    assert AllSpace(u, rs[..n + 1]) by {
      assert rs[..n + 1] == [rs[0]] + r[..n];
    }
    assert rs[n + 1..] == r[n..];
    if ts != [] {
      assert rs[n + 1 + |ts[0].s|..] == r[n + |ts[0].s|..];
    }
    assert ConsistsFrom(u, rs, ts, n + 1);
  }

  lemma {:induction false} TokenFirst(u: Runes, rs: string, t: Token, ts: seq<Token>)
    requires t.s <= rs && Formed(u, t) && EndsBefore(u, t, rs[|t.s|..]) && Consists(u, rs[|t.s|..], ts)
    ensures Consists(u, rs, [t] + ts)
  {
    hide EndsBefore, Formed;
    assert AllSpace(u, rs[..0]) && rs[0..] == rs && rs[0 + |t.s|..] == rs[|t.s|..];
    assert ([t] + ts)[1..] == ts;
    assert ConsistsFrom(u, rs, [t] + ts, 0);
  }
}
