/**
  A text read with its line comments skipped, said of its tokens and of the lines they
  stand on: what each comment drops, and where a quote that runs past a comment's line
  makes the reader go on inside a token.
 */
module SqlLines {
  import opened SqlTokens
  import opened SqlFormatTokens
  import opened SqlFormatRoundTrip
  import opened SqlComments

  // ----- tokens and lines -----

  /** For each token, whether a line break stands between it and the one before; begun when
      one stands before the text. */
  function Lines(u: Runes, rs: string, begun: bool): (r: seq<bool>)
    ensures |r| == |Tokens(u, rs)|
  {
    if rs == [] then []
    else if u.isSpace(rs[0]) then Lines(u, rs[1..], begun || rs[0] == '\n')
    else [begun] + Lines(u, rs[First(u, rs).1..], false)
  }

  /** The text after token j. */
  function After(u: Runes, rs: string, j: nat): string
    requires j < |Tokens(u, rs)|
  {
    if u.isSpace(rs[0]) then After(u, rs[1..], j)
    else
      var rest := rs[First(u, rs).1..];
      if j == 0 then rest else After(u, rest, j - 1)
  }

  // ----- what comments leave -----

  /** Where the first two dashes are. */
  function DashAt(s: string): (j: nat)
    ensures j <= |s| && (j < |s| ==> StartsComment(s[j..]))
  {
    if s == [] || StartsComment(s) then 0 else 1 + DashAt(s[1..])
  }

  /** The operator starts a comment. */
  predicate Opens(t: Token) {
    t.kind == Operator && Dashes(t.s)
  }

  /** What is left of it. */
  function Head(t: Token): seq<Token> {
    if DashAt(t.s) == 0 then [] else [Token(t.s[..DashAt(t.s)], t.kind)]
  }

  /** The tokens that are in no comment: one drops what follows on its line. */
  function Survivors(ts: seq<Token>, lines: seq<bool>, dropping: bool): seq<Token>
    requires |ts| == |lines|
  {
    if ts == [] then []
    else if dropping && !lines[0] then Survivors(ts[1..], lines[1..], true)
    else if Opens(ts[0]) then Head(ts[0]) + Survivors(ts[1..], lines[1..], true)
    else [ts[0]] + Survivors(ts[1..], lines[1..], false)
  }

  /** The first token that a comment reaches and that runs past its line; |ts| when there is
      none. */
  function CutAt(ts: seq<Token>, lines: seq<bool>, dropping: bool): (j: nat)
    requires |ts| == |lines|
    ensures j <= |ts|
  {
    if ts == [] then 0
    else if dropping && !lines[0] then
      if '\n' in ts[0].s then 0 else 1 + CutAt(ts[1..], lines[1..], true)
    else 1 + CutAt(ts[1..], lines[1..], Opens(ts[0]))
  }

  // ----- lines and tokens of a text that starts with a token -----

  lemma {:induction false} FirstLine(u: Runes, t: Token, rest: string, begun: bool)
    requires t.s != [] && !u.isSpace(t.s[0]) && First(u, t.s + rest) == (t.kind, |t.s|)
    ensures Tokens(u, t.s + rest) == [t] + Tokens(u, rest)
    ensures Lines(u, t.s + rest, begun) == [begun] + Lines(u, rest, false)
  {
    hide First;
    var w := t.s + rest;
    assert w[..|t.s|] == t.s && w[|t.s|..] == rest;
  }

  lemma {:induction false} AfterFirst(u: Runes, t: Token, rest: string, j: nat)
    requires t.s != [] && !u.isSpace(t.s[0]) && First(u, t.s + rest) == (t.kind, |t.s|) && j <= |Tokens(u, rest)|
    ensures j < |Tokens(u, t.s + rest)| && After(u, t.s + rest, j) == if j == 0 then rest else After(u, rest, j - 1)
  {
    hide First, Tokens;
    FirstLine(u, t, rest, false);
    var w := t.s + rest;
    assert w[|t.s|..] == rest;
  }

  // ----- the reader -----

  lemma {:induction false} LineEndAfter(s: string, rest: string)
    ensures '\n' !in s ==> ToLineEnd(s + rest) == ToLineEnd(rest)
    ensures '\n' in s ==> ToLineEnd(s + rest) == ToLineEnd(s) + rest
    decreases |s|
  {
    if s == [] {
      assert s + rest == rest;
    } else {
      assert (s + rest)[1..] == s[1..] + rest;
      LineEndAfter(s[1..], rest);
    }
  }

  /** Text that the reader goes on with starts as it is written, or on a new line. */
  lemma {:induction false} UncommentedStarts(rest: string)
    ensures var v := Uncommented(None, rest); v == [] || v[0] == '\n' || (rest != [] && v[0] == rest[0])
  {
    if rest != [] && StartsComment(rest) {
      NextStarts(rest[2..]);
    }
  }

  lemma {:induction false} NextStarts(s: string)
    ensures var next := Uncommented(None, ToLineEnd(s)); next == [] || next[0] == '\n'
  {
  }

  lemma {:induction false} LineIsBounded(u: Runes, t: Token, v: string)
    requires Lawful(u) && (v == [] || v[0] == '\n')
    ensures Bounded(u, t, v)
  {
    hide Lawful, IsOperator;
    if v != [] {
      BlanksAreSpace(u);
      MarksAreNoWords(u, v[0]);
    }
  }

  /** A token outside comments is read, and what follows it. */
  lemma {:induction false} TokenIsRead(u: Runes, t: Token, rest: string)
    requires Lawful(u) && Proper(u, t) && (Closed(t) || rest == []) && !Opens(t) && Bounded(u, t, rest)
    ensures Tokens(u, Uncommented(None, t.s + rest)) == [t] + Tokens(u, Uncommented(None, rest))
  {
    hide Lawful, Uncommented, First, Closed, Dashes, Tokens;
    BoundedMeetsNoDash(u, t, rest);
    TokenKept(u, t, rest);
    var v := Uncommented(None, rest);
    UncommentedStarts(rest);
    if rest == [] {
      NothingKept(' ');
      assert t.s + v == t.s;
      ReadsAlone(u, t);
      NoTokens(u);
    } else {
      KeptIsBounded(u, t, rest, v);
      ReadsBack(u, t, v);
    }
  }

  lemma {:induction false} KeptIsBounded(u: Runes, t: Token, rest: string, v: string)
    requires Lawful(u) && Bounded(u, t, rest) && (v == [] || v[0] == '\n' || (rest != [] && v[0] == rest[0]))
    ensures Bounded(u, t, v)
  {
    hide Lawful, IsOperator;
    if v == [] || v[0] == '\n' {
      LineIsBounded(u, t, v);
    }
  }

  lemma {:induction false} BoundedMeetsNoDash(u: Runes, t: Token, rest: string)
    requires Lawful(u) && Proper(u, t) && Bounded(u, t, rest)
    ensures !MeetsDash(t, rest)
  {
    hide Lawful, IsOperator, First;
    DashIsOperator();
    if t.kind == Operator && t.s[|t.s| - 1] == '-' {
      DashRuns(u, t);
    }
  }

  lemma {:induction false} DashRuns(u: Runes, t: Token)
    requires Lawful(u) && Proper(u, t) && t.kind == Operator && t.s[|t.s| - 1] == '-'
    ensures Runs(t)
  {
    hide Lawful, IsOperator;
    DashIsOperator();
    if |t.s| == 1 {
      StartOf(u, t);
    }
  }

  lemma {:induction false} DashesAt(s: string)
    ensures Dashes(s) <==> DashAt(s) < |s|
    ensures Dashes(s) ==> DashAt(s) + 2 <= |s|
    ensures forall i | 0 <= i < DashAt(s) :: !StartsComment(s[i..])
    decreases |s|
  {
    if s != [] && !StartsComment(s) {
      DashesAt(s[1..]);
      if Dashes(s) {
        var j :| 0 <= j < |s| - 1 && s[j] == '-' && s[j + 1] == '-';
        assert j > 0;
        assert s[1..][j - 1] == '-' && s[1..][j] == '-';
      }
      if Dashes(s[1..]) {
        var j :| 0 <= j < |s[1..]| - 1 && s[1..][j] == '-' && s[1..][j + 1] == '-';
        assert s[j + 1] == '-' && s[j + 2] == '-';
      }
      forall i | 0 <= i < DashAt(s)
        ensures !StartsComment(s[i..])
      {
        if i > 0 {
          assert s[i..] == s[1..][i - 1..];
        } else {
          assert s[0..] == s;
        }
      }
    } else if s != [] {
      assert s[0] == '-' && s[1] == '-';
    }
  }

  /** An operator with dashes: its head is read, and the next line. */
  lemma {:induction false} OpenerIsRead(u: Runes, t: Token, rest: string)
    requires Lawful(u) && Proper(u, t) && Opens(t)
    ensures Tokens(u, Uncommented(None, t.s + rest)) == Head(t) + Tokens(u, Uncommented(None, ToLineEnd(rest)))
  {
    hide Lawful, Uncommented, First, Tokens, ToLineEnd, Dashes, StartsComment, IsOperator;
    var k := DashAt(t.s);
    DashesAt(t.s);
    var p, tail := t.s[..k], t.s[k + 2..];
    OpenerDrops(u, t, rest);
    var v := Uncommented(None, ToLineEnd(rest));
    if k == 0 {
      assert p + v == v && [] + Tokens(u, v) == Tokens(u, v);
    } else {
      HeadIsWhole(u, t, k);
      NextStarts(rest);
      LineIsBounded(u, Token(p, Operator), v);
      ReadsBack(u, Token(p, Operator), v);
    }
  }

  lemma {:induction false} OperatorText(u: Runes, t: Token, i: nat)
    requires Lawful(u) && Proper(u, t) && Opens(t) && i < |t.s|
    ensures IsOperator(t.s[i]) && !IsQuote(t.s[i]) && t.s[i] != '\n'
  {
    hide Lawful, IsOperator;
    DashesAt(t.s);
    assert |t.s| >= 2;
    if i > 0 {
      OperatorRunIs(t.s[1..], i - 1);
    }
    OperatorRunes(t.s[i]);
    BlanksAreSpace(u);
    MarksAreNoWords(u, t.s[i]);
  }

  lemma {:induction false} OpenerDrops(u: Runes, t: Token, rest: string)
    requires Lawful(u) && Proper(u, t) && Opens(t)
    ensures var p := t.s[..DashAt(t.s)];
            Uncommented(None, t.s + rest) == p + Uncommented(None, ToLineEnd(rest))
  {
    hide Lawful, Uncommented, First, ToLineEnd, Dashes, IsOperator, StartsComment, Proper;
    var k := DashAt(t.s);
    DashesAt(t.s);
    var p, tail := t.s[..k], t.s[k + 2..];
    DashesHere(t.s, k);
    assert t.s + rest == p + ("--" + (tail + rest));
    HeadKept(u, t, rest);
    CommentDropped(tail + rest);
    TailHasNoLine(u, t, k + 2);
    LineEndAfter(tail, rest);
  }

  lemma {:induction false} TailHasNoLine(u: Runes, t: Token, k: nat)
    requires Lawful(u) && Proper(u, t) && Opens(t) && k <= |t.s|
    ensures '\n' !in t.s[k..]
  {
    hide Lawful, First, Dashes, IsOperator, IsQuote;
    forall i | 0 <= i < |t.s[k..]|
      ensures t.s[k..][i] != '\n'
    {
      OperatorText(u, t, k + i);
    }
  }

  lemma {:induction false} HeadKept(u: Runes, t: Token, rest: string)
    requires Lawful(u) && Proper(u, t) && Opens(t)
    ensures var k := DashAt(t.s);
            && k + 2 <= |t.s|
            && Uncommented(None, t.s[..k] + ("--" + (t.s[k + 2..] + rest)))
            == t.s[..k] + Uncommented(None, "--" + (t.s[k + 2..] + rest))
  {
    hide Lawful, Uncommented, First, Dashes, IsOperator, IsQuote, StartsComment, Proper;
    var k := DashAt(t.s);
    DashesAt(t.s);
    DashesHere(t.s, k);
    var p, w := t.s[..k], t.s + rest;
    assert w == p + ("--" + (t.s[k + 2..] + rest));
    forall i | 0 <= i < |p|
      ensures !IsQuote(p[i]) && !StartsComment(w[i..])
    {
      OperatorText(u, t, i);
      SameStart(t.s, rest, i);
    }
    PlainKept(p, "--" + (t.s[k + 2..] + rest));
  }

  lemma {:induction false} DashesHere(s: string, k: nat)
    requires k < |s| && StartsComment(s[k..])
    ensures k + 2 <= |s| && s == s[..k] + ("--" + s[k + 2..])
  {
  }

  lemma {:induction false} SameStart(s: string, rest: string, i: nat)
    requires i + 1 < |s| && !StartsComment(s[i..])
    ensures !StartsComment((s + rest)[i..])
  {
  }

  lemma {:induction false} CommentDropped(rest: string)
    ensures Uncommented(None, "--" + rest) == Uncommented(None, ToLineEnd(rest))
  {
    assert ("--" + rest)[2..] == rest;
  }

  lemma {:induction false} HeadIsWhole(u: Runes, t: Token, k: nat)
    requires Lawful(u) && Proper(u, t) && Opens(t) && 0 < k <= |t.s|
    ensures Whole(u, Token(t.s[..k], Operator))
  {
    hide Lawful, IsOperator;
    var p := t.s[..k];
    OperatorText(u, t, 0);
    OperatorRunes(t.s[0]);
    MarksAreNoWords(u, t.s[0]);
    OperatorPrefix(t.s[1..], k - 1);
    assert p[1..] == t.s[1..][..k - 1];
  }

  lemma {:induction false} OperatorPrefix(s: string, k: nat)
    requires OperatorRun(s) == |s| && k <= |s|
    ensures OperatorRun(s[..k]) == k
  {
    hide IsOperator;
    if k > 0 {
      OperatorPrefix(s[1..], k - 1);
      assert s[..k][1..] == s[1..][..k - 1];
    }
  }

  // ----- every text -----

  /** What the reader makes of a text, given its tokens, its lines and where it is cut. */
  function ReadFrom(u: Runes, rs: string, begun: bool, dropping: bool): seq<Token> {
    var ts, lines := Tokens(u, rs), Lines(u, rs, begun);
    var j := CutAt(ts, lines, dropping);
    if j == |ts| then Survivors(ts, lines, dropping)
    else Survivors(ts[..j], lines[..j], dropping) + Read(u, ToLineEnd(ts[j].s) + After(u, rs, j))
  }

  lemma {:induction false} ReadSpace(u: Runes, c: char, rest: string, begun: bool, dropping: bool)
    requires u.isSpace(c)
    ensures ReadFrom(u, [c] + rest, begun, dropping) == ReadFrom(u, rest, begun || c == '\n', dropping)
  {
    hide Read, Survivors, CutAt, First;
    assert ([c] + rest)[1..] == rest;
  }

  /** Whether the token is dropped, and whether the next one is in a comment. */
  lemma {:induction false} SurvivorsStep(t: Token, ts: seq<Token>, begun: bool, lines: seq<bool>, dropping: bool)
    requires |ts| == |lines|
    ensures var dropped := dropping && !begun;
            && Survivors([t] + ts, [begun] + lines, dropping)
            == (if dropped then [] else if Opens(t) then Head(t) else [t]) + Survivors(ts, lines, dropped || Opens(t))
            && CutAt([t] + ts, [begun] + lines, dropping)
            == if dropped && '\n' in t.s then 0 else 1 + CutAt(ts, lines, dropped || Opens(t))
  {
    hide Opens, Head;
    assert ([t] + ts)[1..] == ts && ([begun] + lines)[1..] == lines;
  }

  /** One token: dropped, cut, the start of a comment, or read. */
  lemma {:induction false} ReadToken(u: Runes, t: Token, rest: string, begun: bool, dropping: bool)
    requires t.s != [] && !u.isSpace(t.s[0]) && First(u, t.s + rest) == (t.kind, |t.s|)
    ensures ReadFrom(u, t.s + rest, begun, dropping) ==
            if dropping && !begun then
              (if '\n' in t.s then Read(u, ToLineEnd(t.s) + rest) else ReadFrom(u, rest, false, true))
            else (if Opens(t) then Head(t) else [t]) + ReadFrom(u, rest, false, Opens(t))
  {
    hide Read, First, Tokens, Lines, Opens, Head, After, Survivors, CutAt, ToLineEnd;
    var ts, lines := Tokens(u, rest), Lines(u, rest, false);
    FirstLine(u, t, rest, begun);
    SurvivorsStep(t, ts, begun, lines, dropping);
    if dropping && !begun && '\n' in t.s {
      AfterFirst(u, t, rest, 0);
      NothingSurvives(dropping);
      assert ([t] + ts)[..0] == [] && ([begun] + lines)[..0] == [];
      assert [] + Read(u, ToLineEnd(t.s) + rest) == Read(u, ToLineEnd(t.s) + rest);
    } else {
      var j := CutAt(ts, lines, (dropping && !begun) || Opens(t));
      if j < |ts| {
        AfterFirst(u, t, rest, j + 1);
        assert ([t] + ts)[..j + 1] == [t] + ts[..j] && ([begun] + lines)[..j + 1] == [begun] + lines[..j];
        SurvivorsStep(t, ts[..j], begun, lines[..j], dropping);
      }
    }
  }

  lemma {:induction false} NothingSurvives(dropping: bool)
    ensures Survivors([], [], dropping) == []
  {
  }

  lemma {:induction false} ReadNothing(u: Runes, begun: bool, dropping: bool)
    ensures ReadFrom(u, [], begun, dropping) == [] && Tokens(u, Uncommented(None, [])) == []
  {
  }

  /** For every text: the reader finds what its comments leave, and where one is cut, goes
      on with the line inside the token. */
  lemma {:induction false} ReadsFrom(u: Runes, rs: string, begun: bool, dropping: bool)
    requires Lawful(u)
    ensures var text := if dropping && !begun then ToLineEnd(rs) else rs;
            Tokens(u, Uncommented(None, text)) == ReadFrom(u, rs, begun, dropping)
    decreases |rs|
  {
    hide Lawful, Tokens, Uncommented, ReadFrom, First, Opens, Head, ToLineEnd;
    if rs == [] {
      ReadNothing(u, begun, dropping);
      LineEndHere([]);
    } else if u.isSpace(rs[0]) {
      var rest := rs[1..];
      assert rs == [rs[0]] + rest;
      ReadSpace(u, rs[0], rest, begun, dropping);
      ReadsFrom(u, rest, begun || rs[0] == '\n', dropping);
      SpaceRead(u, rs[0], rest);
    } else {
      var (kind, n) := First(u, rs);
      var t, rest := Token(rs[..n], kind), rs[n..];
      assert rs == t.s + rest;
      ReadToken(u, t, rest, begun, dropping);
      FirstIsProper(u, rs);
      if dropping && !begun {
        LineEndAfter(t.s, rest);
        if '\n' !in t.s {
          ReadsFrom(u, rest, false, true);
        }
      } else {
        ReadsFrom(u, rest, false, Opens(t));
        FirstRead(u, rs);
      }
    }
  }

  lemma {:induction false} LineEndHere(rest: string)
    requires rest == [] || rest[0] == '\n'
    ensures ToLineEnd(rest) == rest
  {
  }

  lemma {:induction false} SpaceRead(u: Runes, c: char, rest: string)
    requires Lawful(u) && u.isSpace(c)
    ensures Tokens(u, Uncommented(None, [c] + rest)) == Tokens(u, Uncommented(None, rest))
    ensures ToLineEnd([c] + rest) == if c == '\n' then [c] + rest else ToLineEnd(rest)
  {
    hide Lawful, Uncommented, First;
    SpaceKept(u, c, rest);
    var v := Uncommented(None, rest);
    assert ([c] + v)[1..] == v && ([c] + rest)[1..] == rest;
  }

  lemma {:induction false} SpaceKept(u: Runes, c: char, rest: string)
    requires Lawful(u) && u.isSpace(c)
    ensures Uncommented(None, [c] + rest) == [c] + Uncommented(None, rest)
  {
    hide Uncommented, Lawful, IsOperator;
    DashIsOperator();
    MarksAreNoWords(u, c);
    KeptRune(c, rest);
  }

  lemma {:induction false} FirstRead(u: Runes, rs: string)
    requires Lawful(u) && rs != [] && !u.isSpace(rs[0])
    ensures var (kind, n) := First(u, rs);
            var t, rest := Token(rs[..n], kind), rs[n..];
            Tokens(u, Uncommented(None, rs))
            == (if Opens(t) then Head(t) else [t])
              + Tokens(u, Uncommented(None, if Opens(t) then ToLineEnd(rest) else rest))
  {
    hide Lawful, Tokens, Uncommented, First, Opens, Head, ToLineEnd, Closed, Proper;
    var (kind, n) := First(u, rs);
    var t, rest := Token(rs[..n], kind), rs[n..];
    assert rs == t.s + rest;
    FirstIsProper(u, rs);
    FirstIsClosed(u, rs);
    FirstIsBounded(u, rs);
    if Opens(t) {
      OpenerIsRead(u, t, rest);
    } else {
      TokenIsRead(u, t, rest);
    }
  }

  // ----- tokens are as long as they can be -----

  lemma {:induction false} WordRunEnds(u: Runes, rs: string)
    ensures WordRun(u, rs) < |rs| ==> !IsWord(u, rs[WordRun(u, rs)])
  {
    if rs != [] && IsWord(u, rs[0]) {
      WordRunEnds(u, rs[1..]);
    }
  }

  lemma {:induction false} OperatorRunEnds(rs: string)
    ensures OperatorRun(rs) < |rs| ==> !IsOperator(rs[OperatorRun(rs)])
  {
    hide IsOperator;
    if rs != [] && IsOperator(rs[0]) {
      OperatorRunEnds(rs[1..]);
    }
  }

  lemma {:induction false} LiteralEnds(rs: string)
    ensures QuoteRun('\'', rs) < |rs| ==> rs[QuoteRun('\'', rs)] != '\''
    decreases |rs|
  {
    if rs != [] {
      if rs[0] != '\'' {
        LiteralEnds(rs[1..]);
      } else if |rs| > 1 && rs[1] == '\'' {
        LiteralEnds(rs[2..]);
      }
    }
  }

  /** A token is as long as it can be. */
  lemma {:induction false} FirstIsBounded(u: Runes, rs: string)
    requires rs != []
    ensures var (kind, n) := First(u, rs); Bounded(u, Token(rs[..n], kind), rs[n..])
  {
    hide IsOperator;
    WordRunEnds(u, rs);
    OperatorRunEnds(rs[1..]);
    LiteralEnds(rs[1..]);
  }

  /** For every text: what a reader that skips line comments makes of it. */
  lemma {:induction false} ReadByLines(u: Runes, rs: string)
    requires Lawful(u)
    ensures var ts, lines := Tokens(u, rs), Lines(u, rs, false);
            var j := CutAt(ts, lines, false);
            Read(u, rs) == if j == |ts| then Survivors(ts, lines, false)
                           else Survivors(ts[..j], lines[..j], false) + Read(u, ToLineEnd(ts[j].s) + After(u, rs, j))
  {
    hide Tokens, Lines, CutAt, Survivors, After, Uncommented;
    ReadsFrom(u, rs, false, false);
  }
}
