/**
  Spelling correction: the pass over a search string that rewrites its words, and what it
  does to a word, a phrase and an operator.
 */
module SearchRewrite {
  import opened SearchText

  type Fixes = map<string, string>

  /** Corrections of words of three runes or more by lower-case words, none of them the
      operator "or". */
  ghost predicate Corrects(u: Alphabet, fix: Fixes) {
    forall k | k in fix ::
      |k| >= 3 && fix[k] != [] && AllWord(u, fix[k]) && Lower(u, fix[k]) == fix[k] && fix[k] != "or"
  }

  function Key(u: Alphabet, w: string): string {
    Fold(u, Lower(u, w))
  }

  function Rewritten(u: Alphabet, fix: Fixes, w: string): string {
    if Key(u, w) in fix then fix[Key(u, w)] else w
  }

  /** s with the words whose folded form is in fix rewritten, everything else as typed. */
  function Replaced(u: Alphabet, fix: Fixes, s: string): string {
    if s == [] then []
    else if !u.isWord(s[0]) then [s[0]] + Replaced(u, fix, s[1..])
    else
      var n := Run(u, s);
      Rewritten(u, fix, s[..n]) + Replaced(u, fix, s[n..])
  }

  method ReplaceWords(u: Alphabet, fix: Fixes, rs: string) returns (b: string)
    ensures b == Replaced(u, fix, rs)
  {
    hide Replaced;
    b := [];
    var i := 0;
    assert rs[0..] == rs;
    while i < |rs|
      invariant i <= |rs|
      invariant b + Replaced(u, fix, rs[i..]) == Replaced(u, fix, rs)
    {
      if !u.isWord(rs[i]) {
        ReplacedOther(u, fix, rs[i..]);
        assert rs[i..][1..] == rs[i + 1..];
        b := b + [rs[i]];
        i := i + 1;
      } else {
        var end := ScanWord(u, rs, i);
        ReplacedRun(u, fix, rs, i, end);
        var w := rs[i..end];
        if Key(u, w) in fix {
          w := fix[Key(u, w)];
        }
        b := b + w;
        i := end;
      }
    }
    assert rs[i..] == [];
    ReplacedNothing(u, fix);
  }

  lemma {:induction false} ReplacedRun(u: Alphabet, fix: Fixes, rs: string, i: nat, end: nat)
    requires i < |rs| && u.isWord(rs[i]) && i <= end <= |rs| && end == i + Run(u, rs[i..])
    ensures Replaced(u, fix, rs[i..]) == Rewritten(u, fix, rs[i..end]) + Replaced(u, fix, rs[end..])
  {
    hide Rewritten;
    var s := rs[i..];
    assert s[..end - i] == rs[i..end] && s[end - i..] == rs[end..];
  }

  // ----- words rewritten in a query -----

  /** A word of a query, already lower case. */
  function FixedWord(u: Alphabet, fix: Fixes, w: string): string {
    if Fold(u, w) in fix then fix[Fold(u, w)] else w
  }

  function FixedWords(u: Alphabet, fix: Fixes, ws: seq<string>): seq<string> {
    seq(|ws|, i requires 0 <= i < |ws| => FixedWord(u, fix, ws[i]))
  }

  function FixedTerm(u: Alphabet, fix: Fixes, t: Term): Term {
    t.(words := FixedWords(u, fix, t.words))
  }

  function FixedItem(u: Alphabet, fix: Fixes, x: Item): Item {
    match x
    case Or => Or
    case One(t) => One(FixedTerm(u, fix, t))
  }

  function FixedItems(u: Alphabet, fix: Fixes, xs: seq<Item>): seq<Item> {
    seq(|xs|, i requires 0 <= i < |xs| => FixedItem(u, fix, xs[i]))
  }

  function FixedGroup(u: Alphabet, fix: Fixes, g: Group): Group {
    seq(|g|, i requires 0 <= i < |g| => FixedTerm(u, fix, g[i]))
  }

  function FixedQuery(u: Alphabet, fix: Fixes, q: Query): Query {
    seq(|q|, i requires 0 <= i < |q| => FixedGroup(u, fix, q[i]))
  }

  lemma {:induction false} FixedGroups(u: Alphabet, fix: Fixes, xs: seq<Item>, g: Group)
    ensures Groups(FixedItems(u, fix, xs), FixedGroup(u, fix, g)) == FixedQuery(u, fix, Groups(xs, g))
    decreases |xs|
  {
    hide FixedTerm;
    var ys := FixedItems(u, fix, xs);
    if xs != [] {
      assert ys[1..] == FixedItems(u, fix, xs[1..]);
      match xs[0] {
        case Or =>
          FixedGroups(u, fix, xs[1..], []);
          assert FixedGroup(u, fix, []) == [];
        case One(t) =>
          FixedGroups(u, fix, xs[1..], g + [t]);
          assert FixedGroup(u, fix, g + [t]) == FixedGroup(u, fix, g) + [FixedTerm(u, fix, t)];
      }
    }
  }

  lemma {:induction false} FixedPositives(u: Alphabet, fix: Fixes, q: Query)
    ensures Positives(FixedQuery(u, fix, q)) == FixedQuery(u, fix, Positives(q))
  {
    if q != [] {
      var r := FixedQuery(u, fix, q);
      assert r[1..] == FixedQuery(u, fix, q[1..]);
      FixedPositives(u, fix, q[1..]);
      assert Positive(r[0]) == Positive(q[0]) by {
        assert forall i | 0 <= i < |q[0]| :: r[0][i].negate == q[0][i].negate;
      }
    }
  }

  // ----- reading one token -----

  predicate NoWordAhead(u: Alphabet, s: string) {
    s == [] || !u.isWord(s[0])
  }

  lemma {:induction false} WordThen(u: Alphabet, w: string, rest: string)
    requires AllWord(u, w) && NoWordAhead(u, rest)
    ensures Run(u, w + rest) == |w| && (w + rest)[..|w|] == w && (w + rest)[|w|..] == rest
  {
    assert (w + rest)[..|w|] == w;
    RunIs(u, w + rest, |w|);
  }

  lemma {:induction false} WordToken(u: Alphabet, negate: bool, w: string, rest: string)
    requires Lawful(u) && w != [] && AllWord(u, w) && NoWordAhead(u, rest)
    ensures TokenItems(u, negate, w + rest) == [WordItem(Lower(u, w), negate)] + Items(u, false, rest)
  {
    hide Items;
    WordThen(u, w, rest);
    assert u.isWord(w[0]) && u.isWord(w[|w| - 1]);
  }

  /** A word right after something that is not a space. */
  lemma {:induction false} WordItems(u: Alphabet, w: string, rest: string)
    requires Lawful(u) && w != [] && AllWord(u, w) && NoWordAhead(u, rest)
    ensures Items(u, false, w + rest) == [WordItem(Lower(u, w), false)] + Items(u, false, rest)
  {
    WordToken(u, false, w, rest);
  }

  lemma {:induction false} QuoteToken(u: Alphabet, negate: bool, body: string, after: string)
    requires Lawful(u) && '"' !in body
    ensures TokenItems(u, negate, ['"'] + body + ['"'] + after)
         == PhraseItems(SplitWords(u, body), negate, NearValue(after)) + Items(u, false, after[NearLength(after)..])
  {
    hide Items, SplitWords;
    var s := ['"'] + body + ['"'] + after;
    assert s[1..] == body + ['"'] + after;
    assert s[1..][..|body|] == body;
    QuoteEndIs(s[1..], |body|);
    assert s[1..1 + |body|] == body && s[2 + |body|..] == after;
    var m := NearLength(after);
    if m > 1 {
      assert Digit(after[1..][m - 2]);
    }
  }

  lemma {:induction false} SplitWord(u: Alphabet, w: string, rest: string)
    requires Lawful(u) && w != [] && AllWord(u, w) && NoWordAhead(u, rest)
    ensures SplitWords(u, w + rest) == [Lower(u, w)] + SplitWords(u, rest)
  {
    assert Lower(u, w + rest) == Lower(u, w) + Lower(u, rest);
    WordThen(u, Lower(u, w), Lower(u, rest));
  }

  lemma {:induction false} SplitOther(u: Alphabet, c: char, rest: string)
    requires Lawful(u) && !u.isWord(c)
    ensures SplitWords(u, [c] + rest) == SplitWords(u, rest)
  {
    assert Lower(u, [c] + rest) == [u.lower(c)] + Lower(u, rest);
    assert ([u.lower(c)] + Lower(u, rest))[1..] == Lower(u, rest);
  }

  // ----- rewriting one token -----

  lemma {:induction false} RewrittenWord(u: Alphabet, fix: Fixes, w: string)
    requires Lawful(u) && Corrects(u, fix) && w != [] && AllWord(u, w)
    ensures Rewritten(u, fix, w) != [] && AllWord(u, Rewritten(u, fix, w))
    ensures Lower(u, Rewritten(u, fix, w)) == FixedWord(u, fix, Lower(u, w))
  {
  }

  /** Where nothing but the end or a non-word rune follows, rewriting splits. */
  lemma {:induction false} ReplacedWord(u: Alphabet, fix: Fixes, w: string, rest: string)
    requires w != [] && AllWord(u, w) && NoWordAhead(u, rest)
    ensures Replaced(u, fix, w + rest) == Rewritten(u, fix, w) + Replaced(u, fix, rest)
  {
    WordThen(u, w, rest);
    assert u.isWord((w + rest)[0]);
  }

  lemma {:induction false} ReplacedHead(u: Alphabet, fix: Fixes, s: string)
    requires Lawful(u) && Corrects(u, fix)
    ensures s == [] <==> Replaced(u, fix, s) == []
    ensures s != [] && !u.isWord(s[0]) ==> Replaced(u, fix, s)[0] == s[0]
    ensures s != [] && u.isWord(s[0]) ==> u.isWord(Replaced(u, fix, s)[0])
  {
    if s != [] && u.isWord(s[0]) {
      RewrittenWord(u, fix, s[..Run(u, s)]);
    }
  }

  lemma {:induction false} ReplacedConcat(u: Alphabet, fix: Fixes, a: string, b: string)
    requires NoWordAhead(u, b)
    ensures Replaced(u, fix, a + b) == Replaced(u, fix, a) + Replaced(u, fix, b)
    decreases |a|
  {
    hide Rewritten;
    if a == [] {
      assert a + b == b;
    } else if !u.isWord(a[0]) {
      assert (a + b)[1..] == a[1..] + b;
      ReplacedConcat(u, fix, a[1..], b);
    } else {
      var n := Run(u, a);
      var w, rest := a[..n], a[n..];
      assert a == w + rest && a + b == w + (rest + b);
      ReplacedWord(u, fix, w, rest + b);
      ReplacedWord(u, fix, w, rest);
      ReplacedConcat(u, fix, rest, b);
    }
  }

  lemma {:induction false} NoQuoteAdded(u: Alphabet, fix: Fixes, s: string)
    requires Lawful(u) && Corrects(u, fix) && '"' !in s
    ensures '"' !in Replaced(u, fix, s)
    decreases |s|
  {
    if s == [] {
    } else if !u.isWord(s[0]) {
      NoQuoteAdded(u, fix, s[1..]);
    } else {
      var n := Run(u, s);
      RewrittenWord(u, fix, s[..n]);
      NoQuoteAdded(u, fix, s[n..]);
      var v := Rewritten(u, fix, s[..n]);
      assert forall i | 0 <= i < |v| :: v[i] != '"';
    }
  }

  /** The words of a rewritten phrase are the rewritten words of the phrase. */
  lemma {:induction false} ReplacedSplit(u: Alphabet, fix: Fixes, s: string)
    requires Lawful(u) && Corrects(u, fix)
    ensures SplitWords(u, Replaced(u, fix, s)) == FixedWords(u, fix, SplitWords(u, s))
    decreases |s|
  {
    hide Lawful, Corrects, SplitWords, Rewritten, FixedWord;
    if s == [] {
      SplitNothing(u);
    } else if !u.isWord(s[0]) {
      ReplacedSplit(u, fix, s[1..]);
      assert s == [s[0]] + s[1..];
      SplitOther(u, s[0], s[1..]);
      SplitOther(u, s[0], Replaced(u, fix, s[1..]));
    } else {
      var n := Run(u, s);
      var w, rest := s[..n], s[n..];
      assert s == w + rest;
      ReplacedSplit(u, fix, rest);
      RewrittenWord(u, fix, w);
      ReplacedHead(u, fix, rest);
      SplitWord(u, w, rest);
      SplitWord(u, Rewritten(u, fix, w), Replaced(u, fix, rest));
    }
  }

  lemma {:induction false} SplitNothing(u: Alphabet)
    ensures SplitWords(u, []) == []
  {
    assert Lower(u, []) == [];
  }

  /** The operator "or" is never a correction and is too short to be corrected. */
  lemma {:induction false} FixedWordItem(u: Alphabet, fix: Fixes, w: string, negate: bool)
    requires Corrects(u, fix)
    ensures WordItem(FixedWord(u, fix, w), negate) == FixedItem(u, fix, WordItem(w, negate))
  {
    if w == "or" {
      assert |Fold(u, w)| == 2;
    }
  }

  lemma {:induction false} Signs(u: Alphabet)
    requires Lawful(u)
    ensures !u.isWord('"') && !u.isWord('-') && !u.isWord('~')
  {
  }

  lemma {:induction false} ReplacedOther(u: Alphabet, fix: Fixes, s: string)
    requires s != [] && !u.isWord(s[0])
    ensures Replaced(u, fix, s) == [s[0]] + Replaced(u, fix, s[1..])
  {
  }

  lemma {:induction false} ReplacedQuote(u: Alphabet, fix: Fixes, body: string, after: string)
    requires Lawful(u)
    ensures Replaced(u, fix, ['"'] + body + ['"'] + after)
         == ['"'] + Replaced(u, fix, body) + ['"'] + Replaced(u, fix, after)
  {
    hide Lawful, Replaced;
    Signs(u);
    var tail := ['"'] + after;
    assert tail[1..] == after;
    var s := ['"'] + (body + tail);
    assert s[1..] == body + tail;
    assert ['"'] + body + ['"'] + after == s;
    ReplacedOther(u, fix, s);
    ReplacedConcat(u, fix, body, tail);
    ReplacedOther(u, fix, tail);
  }

  lemma {:induction false} ReplacedNothing(u: Alphabet, fix: Fixes)
    ensures Replaced(u, fix, []) == []
  {
  }
}
