/**
  Line comments: what a reader that skips them makes of a statement and of its formatted
  text. The formatter knows no comments and lays out their words like any other.
 */
module SqlComments {
  import opened SqlTokens
  import opened SqlFormat
  import opened SqlFormatTokens
  import opened SqlFormatRoundTrip
  import opened SqlFormatText

  // ----- the reader -----

  /** From the end of the line on. */
  function ToLineEnd(rs: string): (r: string)
    ensures |r| <= |rs| && (r == [] || r[0] == '\n')
  {
    if rs == [] || rs[0] == '\n' then rs else ToLineEnd(rs[1..])
  }

  predicate StartsComment(rs: string) {
    |rs| > 1 && rs[0] == '-' && rs[1] == '-'
  }

  /** The text without its line comments; inside quotes there are none. */
  function Uncommented(quote: Option<char>, rs: string): string
    decreases |rs|
  {
    if rs == [] then []
    else match quote
      case Some(q) => [rs[0]] + Uncommented(if rs[0] == q then None else quote, rs[1..])
      case None =>
        if StartsComment(rs) then Uncommented(None, ToLineEnd(rs[2..]))
        else [rs[0]] + Uncommented(if IsQuote(rs[0]) then Some(rs[0]) else None, rs[1..])
  }

  /** The tokens outside comments. */
  function Read(u: Runes, rs: string): seq<Token> {
    Tokens(u, Uncommented(None, rs))
  }

  predicate Dashes(s: string) {
    exists j | 0 <= j < |s| - 1 :: s[j] == '-' && s[j + 1] == '-'
  }

  /** No operator holds two dashes. */
  predicate NoComments(ts: seq<Token>) {
    forall i | 0 <= i < |ts| :: ts[i].kind == Operator ==> !Dashes(ts[i].s)
  }

  lemma {:induction false} NoCommentsConcat(a: seq<Token>, b: seq<Token>)
    ensures NoComments(a + b) <==> NoComments(a) && NoComments(b)
  {
    hide Dashes;
    assert forall i | 0 <= i < |a| :: (a + b)[i] == a[i];
    assert forall i | 0 <= i < |b| :: (a + b)[|a| + i] == b[i];
    assert forall i | |a| <= i < |a + b| :: (a + b)[i] == b[i - |a|];
  }

  // ----- text the reader keeps -----

  lemma {:induction false} KeptRune(c: char, rest: string)
    requires !StartsComment([c] + rest)
    ensures Uncommented(None, [c] + rest) == [c] + Uncommented(if IsQuote(c) then Some(c) else None, rest)
  {
    assert ([c] + rest)[1..] == rest;
  }

  lemma {:induction false} KeptInside(q: char, c: char, rest: string)
    ensures Uncommented(Some(q), [c] + rest) == [c] + Uncommented(if c == q then None else Some(q), rest)
  {
    assert ([c] + rest)[1..] == rest;
  }

  /** Runes that are no quotes and start no comment. */
  lemma {:induction false} PlainKept(s: string, rest: string)
    requires forall i | 0 <= i < |s| :: !IsQuote(s[i]) && !StartsComment((s + rest)[i..])
    ensures Uncommented(None, s + rest) == s + Uncommented(None, rest)
    decreases |s|
  {
    hide IsQuote, Uncommented, StartsComment;
    if s == [] {
      assert s + rest == rest;
    } else {
      var w := s + rest;
      assert w == [s[0]] + (s[1..] + rest) && w[0..] == w;
      forall i | 0 <= i < |s[1..]|
        ensures !IsQuote(s[1..][i]) && !StartsComment((s[1..] + rest)[i..])
      {
        assert (s[1..] + rest)[i..] == w[i + 1..];
        assert !IsQuote(s[i + 1]) && !StartsComment(w[i + 1..]);
      }
      assert !IsQuote(s[0]) && !StartsComment(w[0..]);
      KeptRune(s[0], s[1..] + rest);
      PlainKept(s[1..], rest);
    }
  }

  /** A closed quote is kept. */
  lemma {:induction false} QuoteKept(q: char, s: string, rest: string)
    requires IsQuote(q) && QuoteCloses(q, s) && QuoteRun(q, s) == |s|
    ensures Uncommented(Some(q), s + rest) == s + Uncommented(None, rest)
    decreases |s|
  {
    hide Uncommented;
    assert s + rest == [s[0]] + (s[1..] + rest);
    KeptInside(q, s[0], s[1..] + rest);
    if s[0] == q {
      if q == '\'' && |s| > 1 && s[1] == '\'' {
        assert s[1..] + rest == [s[1]] + (s[2..] + rest);
        KeptRune(s[1], s[2..] + rest);
        QuoteKept(q, s[2..], rest);
      } else {
        assert s == [s[0]] && s[1..] + rest == rest;
      }
    } else {
      QuoteKept(q, s[1..], rest);
    }
  }

  /** So is an open one, to the end. */
  lemma {:induction false} OpenKept(q: char, s: string)
    requires IsQuote(q) && !QuoteCloses(q, s)
    ensures Uncommented(Some(q), s) == s
    decreases |s|
  {
    hide Uncommented;
    if s == [] {
      NothingKept(q);
    } else {
      assert s == [s[0]] + s[1..];
      KeptInside(q, s[0], s[1..]);
      if s[0] == q {
        assert s[1..] == [s[1]] + s[2..];
        KeptRune(s[1], s[2..]);
        OpenKept(q, s[2..]);
      } else {
        OpenKept(q, s[1..]);
      }
    }
  }

  lemma {:induction false} NothingKept(q: char)
    ensures Uncommented(Some(q), []) == [] == Uncommented(None, [])
  {
  }

  /** Whether the token and what follows it start a comment where they meet. */
  predicate MeetsDash(t: Token, rest: string) {
    t.kind == Operator && t.s != [] && t.s[|t.s| - 1] == '-' && rest != [] && rest[0] == '-'
  }

  lemma {:induction false} DashIsOperator()
    ensures IsOperator('-') && IsMark('-')
  {
  }

  lemma {:induction false} WordHasNoDash(u: Runes, t: Token, i: nat)
    requires Lawful(u) && Proper(u, t) && i < |t.s| && !IsQuote(t.s[0])
    ensures !IsQuote(t.s[i]) && (t.s[i] == '-' ==> t.kind == Operator)
  {
    hide Lawful, IsOperator;
    PlainFirst(u, t.s, i);
    DashIsOperator();
    MarksAreNoWords(u, '-');
    if t.kind == Kind.Word {
      WordRunIs(u, t.s, i);
    }
  }

  /** The reader keeps a token without dashes that is closed, or last. */
  lemma {:induction false} TokenKept(u: Runes, t: Token, rest: string)
    requires Lawful(u) && Proper(u, t) && (Closed(t) || rest == []) && (t.kind == Operator ==> !Dashes(t.s))
    requires !MeetsDash(t, rest)
    ensures Uncommented(None, t.s + rest) == t.s + Uncommented(None, rest)
  {
    hide Lawful, IsOperator, Uncommented, First, QuoteRun, QuoteCloses;
    var q, w := t.s[0], t.s + rest;
    if IsQuote(q) {
      assert t.s + rest == [q] + (t.s[1..] + rest);
      KeptRune(q, t.s[1..] + rest);
      QuotedIsRun(u, t);
      if Closed(t) {
        QuoteKept(q, t.s[1..], rest);
      } else {
        assert t.s[1..] + rest == t.s[1..];
        OpenKept(q, t.s[1..]);
        NothingKept(q);
      }
    } else {
      forall i | 0 <= i < |t.s|
        ensures !IsQuote(t.s[i]) && !StartsComment(w[i..])
      {
        WordHasNoDash(u, t, i);
        if i + 1 < |t.s| {
          assert w[i..][0] == t.s[i] && w[i..][1] == t.s[i + 1];
        } else if rest != [] {
          assert w[i..][0] == t.s[i] && w[i..][1] == rest[0];
        }
      }
      PlainKept(t.s, rest);
    }
  }

  lemma {:induction false} QuotedIsRun(u: Runes, t: Token)
    requires Proper(u, t) && IsQuote(t.s[0])
    ensures QuoteRun(t.s[0], t.s[1..]) == |t.s| - 1
  {
    hide IsOperator;
  }
}
