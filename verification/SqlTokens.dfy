/**
  The tokens of an SQL statement, for laying it out: words, literals, quoted identifiers,
  operators, parentheses and commas. Whitespace outside quotes is dropped.
 */
module SqlTokens {

  /** What the Unicode tables say of a rune, and case conversion. */
  datatype Runes = Runes(isSpace: char -> bool, isLetterOrDigit: char -> bool,
                         upper: string -> string, sameFold: (string, string) -> bool)

  const OPERATORS := "<>=!|@&:+-*/%~^?#"

  predicate IsQuote(c: char) {
    c == '\'' || c == '"' || c == '`'
  }

  predicate IsOperator(c: char) {
    c in OPERATORS
  }

  predicate IsWord(u: Runes, c: char) {
    u.isLetterOrDigit(c) || c == '_' || c == '$' || c == '.'
  }

  predicate IsMark(c: char) {
    IsQuote(c) || IsOperator(c) || c == '(' || c == ')' || c == ','
  }

  predicate Capitals(s: string) {
    forall i | 0 <= i < |s| :: 'A' <= s[i] <= 'Z' || s[i] == ' '
  }

  /** What the layout relies on: blank and newline are space, the classes are apart,
      folding compares rune by rune, and capitals are upper case. */
  ghost predicate Lawful(u: Runes) {
    && u.isSpace(' ') && u.isSpace('\n')
    && (forall c :: u.isSpace(c) ==> !IsMark(c) && !IsWord(u, c))
    && (forall c :: IsMark(c) ==> !u.isLetterOrDigit(c))
    && (forall s :: u.sameFold(s, s))
    && (forall s, w :: u.sameFold(s, w) ==> |s| == |w|)
    && (forall s | Capitals(s) :: u.upper(s) == s)
  }

  datatype Kind = Word | Literal | Quoted | Operator | Open | Close | Comma

  datatype Token = Token(s: string, kind: Kind)

  // ----- the specification -----

  /** The length of the run of word runes at the start. */
  function WordRun(u: Runes, rs: string): (n: nat)
    ensures n <= |rs|
  {
    if rs == [] || !IsWord(u, rs[0]) then 0 else 1 + WordRun(u, rs[1..])
  }

  function OperatorRun(rs: string): (n: nat)
    ensures n <= |rs|
  {
    if rs == [] || !IsOperator(rs[0]) then 0 else 1 + OperatorRun(rs[1..])
  }

  /** The length of what follows an opening quote, its closing quote included; a doubled
      apostrophe does not close a literal. */
  function QuoteRun(q: char, rs: string): (n: nat)
    ensures n <= |rs|
  {
    if rs == [] then 0
    else if rs[0] == q then
      if q == '\'' && |rs| > 1 && rs[1] == '\'' then 2 + QuoteRun(q, rs[2..]) else 1
    else 1 + QuoteRun(q, rs[1..])
  }

  /** The quote is closed before the text ends. */
  predicate QuoteCloses(q: char, rs: string) {
    if rs == [] then false
    else if rs[0] == q then
      if q == '\'' && |rs| > 1 && rs[1] == '\'' then QuoteCloses(q, rs[2..]) else true
    else QuoteCloses(q, rs[1..])
  }

  /** The kind and length of the token at the start of text that starts with no space. */
  function First(u: Runes, rs: string): (t: (Kind, nat))
    requires rs != []
    ensures 0 < t.1 <= |rs|
  {
    var r := rs[0];
    if IsQuote(r) then (if r == '\'' then Literal else Quoted, 1 + QuoteRun(r, rs[1..]))
    else if r == '(' then (Open, 1)
    else if r == ')' then (Close, 1)
    else if r == ',' then (Comma, 1)
    else if IsWord(u, r) then (Kind.Word, WordRun(u, rs))
    else (Operator, if IsOperator(r) then 1 + OperatorRun(rs[1..]) else 1)
  }

  function Tokens(u: Runes, rs: string): seq<Token> {
    if rs == [] then []
    else if u.isSpace(rs[0]) then Tokens(u, rs[1..])
    else
      var (kind, n) := First(u, rs);
      [Token(rs[..n], kind)] + Tokens(u, rs[n..])
  }

  // ----- the loop -----

  method ScanQuote(rs: string, i: nat) returns (end: nat)
    requires i < |rs| && IsQuote(rs[i])
    ensures end == i + 1 + QuoteRun(rs[i], rs[i + 1..])
  {
    var r := rs[i];
    var j := i + 1;
    ghost var total := j + QuoteRun(r, rs[j..]);
    while j < |rs|
      invariant i < j <= |rs|
      invariant j + QuoteRun(r, rs[j..]) == total
    {
      if rs[j] == r {
        if r == '\'' && j + 1 < |rs| && rs[j + 1] == '\'' {
          assert rs[j..][2..] == rs[j + 2..];
          j := j + 2;
          continue;
        }
        break;
      }
      assert rs[j..][1..] == rs[j + 1..];
      j := j + 1;
    }
    end := if j + 1 < |rs| then j + 1 else |rs|;
  }

  method ScanWord(u: Runes, rs: string, i: nat) returns (j: nat)
    requires i < |rs|
    ensures j == i + WordRun(u, rs[i..])
  {
    j := i;
    while j < |rs| && IsWord(u, rs[j])
      invariant i <= j <= |rs|
      invariant j + WordRun(u, rs[j..]) == i + WordRun(u, rs[i..])
    {
      assert rs[j..][1..] == rs[j + 1..];
      j := j + 1;
    }
  }

  method ScanOperator(rs: string, i: nat) returns (j: nat)
    requires i < |rs|
    ensures j == i + 1 + if IsOperator(rs[i]) then OperatorRun(rs[i + 1..]) else 0
  {
    hide IsOperator;
    j := i + 1;
    while j < |rs| && IsOperator(rs[j]) && IsOperator(rs[i])
      invariant i < j <= |rs|
      invariant IsOperator(rs[i]) ==> j + OperatorRun(rs[j..]) == i + 1 + OperatorRun(rs[i + 1..])
      invariant !IsOperator(rs[i]) ==> j == i + 1
    {
      assert rs[j..][1..] == rs[j + 1..];
      j := j + 1;
    }
  }

  method Tokenize(u: Runes, rs: string) returns (out: seq<Token>)
    ensures out == Tokens(u, rs)
  {
    hide IsOperator, QuoteRun, WordRun, OperatorRun;
    out := [];
    var i := 0;
    while i < |rs|
      invariant 0 <= i <= |rs|
      invariant out + Tokens(u, rs[i..]) == Tokens(u, rs)
    {
      var r := rs[i];
      var rest := rs[i..];
      if u.isSpace(r) {
        assert rest[1..] == rs[i + 1..];
        i := i + 1;
      } else {
        var end, kind := i + 1, Operator;
        if IsQuote(r) {
          end := ScanQuote(rs, i);
          kind := if r == '\'' then Literal else Quoted;
        } else if r == '(' {
          kind := Open;
        } else if r == ')' {
          kind := Close;
        } else if r == ',' {
          kind := Comma;
        } else if IsWord(u, r) {
          end := ScanWord(u, rs, i);
          kind := Kind.Word;
        } else {
          end := ScanOperator(rs, i);
        }
        FirstIs(u, rs, i, end, kind);
        out := out + [Token(rs[i..end], kind)];
        i := end;
      }
    }
  }

  /** One token of the remaining text. */
  lemma {:induction false} FirstIs(u: Runes, rs: string, i: nat, end: nat, kind: Kind)
    requires i < end <= |rs| && !u.isSpace(rs[i]) && First(u, rs[i..]) == (kind, end - i)
    ensures Tokens(u, rs[i..]) == [Token(rs[i..end], kind)] + Tokens(u, rs[end..])
  {
    hide First;
    assert rs[i..][..end - i] == rs[i..end] && rs[i..][end - i..] == rs[end..];
  }

  // ----- the tokens are the visible text -----

  function Text(ts: seq<Token>): string {
    if ts == [] then [] else ts[0].s + Text(ts[1..])
  }

  datatype Option<+T> = None | Some(value: T)

  /** The text without the whitespace outside quotes. A quote is open from one quote rune
      to the next of its kind, which makes a doubled apostrophe close and open again. */
  function Visible(u: Runes, quote: Option<char>, rs: string): string
    decreases |rs|
  {
    if rs == [] then []
    else
      var c := rs[0];
      match quote
      case Some(q) => [c] + Visible(u, if c == q then None else quote, rs[1..])
      case None =>
        if u.isSpace(c) then Visible(u, None, rs[1..])
        else [c] + Visible(u, if IsQuote(c) then Some(c) else None, rs[1..])
  }

  lemma {:induction false} VisibleInside(u: Runes, q: char, rs: string)
    requires rs != []
    ensures Visible(u, Some(q), rs) == [rs[0]] + Visible(u, if rs[0] == q then None else Some(q), rs[1..])
  {
  }

  lemma {:induction false} VisibleOutside(u: Runes, rs: string)
    requires rs != [] && !u.isSpace(rs[0])
    ensures Visible(u, None, rs) == [rs[0]] + Visible(u, if IsQuote(rs[0]) then Some(rs[0]) else None, rs[1..])
  {
  }

  lemma {:induction false} QuotedVisible(u: Runes, q: char, rs: string)
    requires Lawful(u) && IsQuote(q)
    ensures var n := QuoteRun(q, rs);
            Visible(u, Some(q), rs) == rs[..n] + Visible(u, None, rs[n..])
    decreases |rs|
  {
    hide Lawful, Visible;
    if rs == [] {
      NothingVisible(u, q);
    } else {
      var n := QuoteRun(q, rs);
      VisibleInside(u, q, rs);
      if rs[0] != q {
        QuotedVisible(u, q, rs[1..]);
        assert rs[..n] == [rs[0]] + rs[1..][..n - 1] && rs[1..][n - 1..] == rs[n..];
      } else if q == '\'' && |rs| > 1 && rs[1] == '\'' {
        QuotedVisible(u, q, rs[2..]);
        DoubledVisible(u, q, rs);
        assert rs[..n] == [rs[0], rs[1]] + rs[2..][..n - 2] && rs[2..][n - 2..] == rs[n..];
      }
    }
  }

  lemma {:induction false} NothingVisible(u: Runes, q: char)
    ensures Visible(u, Some(q), []) == [] == Visible(u, None, [])
  {
  }

  /** A doubled quote closes and opens again, with nothing in between. */
  lemma {:induction false} DoubledVisible(u: Runes, q: char, rs: string)
    requires Lawful(u) && IsQuote(q) && |rs| > 1 && rs[0] == rs[1] == q
    ensures Visible(u, Some(q), rs) == [rs[0], rs[1]] + Visible(u, Some(q), rs[2..])
  {
    hide Lawful, Visible;
    NoSpaceQuote(u, q);
    VisibleInside(u, q, rs);
    VisibleOutside(u, rs[1..]);
    assert rs[1..][1..] == rs[2..];
  }

  lemma {:induction false} NoSpaceQuote(u: Runes, q: char)
    requires Lawful(u) && IsQuote(q)
    ensures !u.isSpace(q)
  {
    assert IsMark(q);
  }

  /** Runes that are neither space nor quote are all visible. */
  lemma {:induction false} PlainVisible(u: Runes, rs: string, n: nat)
    requires n <= |rs| && forall i | 0 <= i < n :: !u.isSpace(rs[i]) && !IsQuote(rs[i])
    ensures Visible(u, None, rs) == rs[..n] + Visible(u, None, rs[n..])
    decreases n
  {
    if n > 0 {
      PlainVisible(u, rs[1..], n - 1);
      assert rs[..n] == [rs[0]] + rs[1..][..n - 1] && rs[1..][n - 1..] == rs[n..];
    } else {
      assert rs[0..] == rs;
    }
  }

  lemma {:induction false} WordRunIs(u: Runes, rs: string, i: nat)
    requires i < WordRun(u, rs)
    ensures IsWord(u, rs[i])
  {
    if i > 0 {
      WordRunIs(u, rs[1..], i - 1);
    }
  }

  lemma {:induction false} OperatorRunIs(rs: string, i: nat)
    requires i < OperatorRun(rs)
    ensures IsOperator(rs[i])
  {
    if i > 0 {
      OperatorRunIs(rs[1..], i - 1);
    }
  }

  lemma {:induction false} PlainFirst(u: Runes, rs: string, i: nat)
    requires Lawful(u) && rs != [] && !u.isSpace(rs[0]) && !IsQuote(rs[0]) && i < First(u, rs).1
    ensures !u.isSpace(rs[i]) && !IsQuote(rs[i])
  {
    if i > 0 {
      if IsWord(u, rs[0]) && First(u, rs).0 == Kind.Word {
        WordRunIs(u, rs, i);
      } else {
        OperatorRunIs(rs[1..], i - 1);
        assert IsMark(rs[i]);
      }
    }
  }

  /** The tokens, one after the other, are the text without the whitespace outside quotes. */
  lemma {:induction false} TokensAreTheVisibleText(u: Runes, rs: string)
    requires Lawful(u)
    ensures Text(Tokens(u, rs)) == Visible(u, None, rs)
    decreases |rs|
  {
    hide Lawful, First;
    if rs != [] {
      if u.isSpace(rs[0]) {
        TokensAreTheVisibleText(u, rs[1..]);
      } else {
        var n := First(u, rs).1;
        FirstVisible(u, rs);
        TokensAreTheVisibleText(u, rs[n..]);
      }
    }
  }

  lemma {:induction false} FirstOfQuote(u: Runes, rs: string)
    requires rs != [] && IsQuote(rs[0])
    ensures First(u, rs).1 == 1 + QuoteRun(rs[0], rs[1..])
  {
    hide IsOperator;
  }

  lemma {:induction false} FirstVisible(u: Runes, rs: string)
    requires Lawful(u) && rs != [] && !u.isSpace(rs[0])
    ensures var n := First(u, rs).1;
            Visible(u, None, rs) == rs[..n] + Visible(u, None, rs[n..])
  {
    hide Lawful, First, Visible, QuoteRun;
    var n := First(u, rs).1;
    if IsQuote(rs[0]) {
      FirstOfQuote(u, rs);
      VisibleOutside(u, rs);
      QuotedVisible(u, rs[0], rs[1..]);
      assert rs[..n] == [rs[0]] + rs[1..][..n - 1] && rs[1..][n - 1..] == rs[n..];
    } else {
      forall i | 0 <= i < n
        ensures !u.isSpace(rs[i]) && !IsQuote(rs[i])
      {
        PlainFirst(u, rs, i);
      }
      PlainVisible(u, rs, n);
    }
  }
}
