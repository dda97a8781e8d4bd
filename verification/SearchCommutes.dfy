/**
  Spelling correction and parsing. Reading a rewritten search string gives the scans of the
  original with each word rewritten, so that quotes, exclusions, proximity and OR groups
  stay, exactly when no correction touches the ~N of a phrase.
 */
module SearchCommutes {
  import opened SearchText
  import opened SearchRewrite
  import opened SearchScans

  // ----- the ~N after a phrase -----

  /** The proximity that the run w of word runes after a '~' gives a phrase of n words. */
  function NearOf(n: nat, w: string): nat {
    Near(n, Number(w[..Digits(w, 3)]))
  }

  /** What is left of the run w after the digits of N: a word of its own, or nothing. */
  function LeftOf(w: string): string {
    w[Digits(w, 3)..]
  }

  /** Rewriting the run w after a '~' keeps the proximity, and rewrites what is left of the
      run as it rewrites a word. */
  predicate KeepsNear(u: Alphabet, fix: Fixes, n: nat, w: string) {
    var w' := Rewritten(u, fix, w);
    && NearOf(n, w') == NearOf(n, w)
    && (LeftOf(w') == [] <==> LeftOf(w) == [])
    && (LeftOf(w) != [] ==> Lower(u, LeftOf(w')) == FixedWord(u, fix, Lower(u, LeftOf(w))))
  }

  /** The run after the '~' that follows a phrase of n words, if one follows. */
  predicate SafeAfter(u: Alphabet, fix: Fixes, n: nat, after: string) {
    after != [] && after[0] == '~' ==> KeepsNear(u, fix, n, after[1..][..Run(u, after[1..])])
  }

  /** No correction touches the ~N of a phrase. */
  predicate NearSafe(u: Alphabet, fix: Fixes, s: string) {
    if s == [] then true
    else if s[0] != '"' then NearSafe(u, fix, s[1..])
    else
      var k := QuoteEnd(s[1..]);
      1 + k < |s| ==>
        SafeAfter(u, fix, |SplitWords(u, s[1..1 + k])|, s[2 + k..]) && NearSafe(u, fix, s[2 + k..])
  }

  lemma {:induction false} NoQuoteIsSafe(u: Alphabet, fix: Fixes, a: string, b: string)
    requires '"' !in a
    ensures NearSafe(u, fix, a + b) == NearSafe(u, fix, b)
  {
    hide SafeAfter;
    if a == [] {
      assert a + b == b;
    } else {
      assert a[0] in a && (a + b)[1..] == a[1..] + b;
      NoQuoteIsSafe(u, fix, a[1..], b);
    }
  }

  /** A text without '~' is safe. */
  lemma {:induction false} WithoutTilde(u: Alphabet, fix: Fixes, s: string)
    requires '~' !in s
    ensures NearSafe(u, fix, s)
  {
    if s == [] {
    } else if s[0] != '"' {
      WithoutTilde(u, fix, s[1..]);
    } else {
      var k := QuoteEnd(s[1..]);
      if 1 + k < |s| {
        assert s[2 + k..] != [] ==> s[2 + k..][0] in s;
        WithoutTilde(u, fix, s[2 + k..]);
      }
    }
  }

  lemma {:induction false} QuoteSafe(u: Alphabet, fix: Fixes, body: string, after: string)
    requires '"' !in body
    ensures NearSafe(u, fix, ['"'] + body + ['"'] + after)
        <==> SafeAfter(u, fix, |SplitWords(u, body)|, after) && NearSafe(u, fix, after)
    ensures NearSafe(u, fix, ['"'] + body)
  {
    hide SafeAfter, SplitWords;
    var s := ['"'] + body + ['"'] + after;
    assert s[1..] == body + ['"'] + after && s[1..][..|body|] == body;
    QuoteEndIs(s[1..], |body|);
    assert s[1..1 + |body|] == body && s[2 + |body|..] == after;
    var t := ['"'] + body;
    assert t[1..] == body && body[..|body|] == body;
    QuoteEndIs(t[1..], |body|);
  }

  // ----- words before the first phrase -----

  lemma {:induction false} LeadKept(u: Alphabet, fix: Fixes, start: bool, s: string)
    requires Lawful(u) && Corrects(u, fix)
    ensures Lead(Scans(u, start, Replaced(u, fix, s))) == Lead(Scans(u, start, s))
    decreases |s|, 1
  {
    hide TokenScans, Corrects, Replaced, Rewritten, Lead;
    ReplacedHead(u, fix, s);
    if s != [] {
      SameSign(u, fix, start, s);
      if Negates(u, start, s) {
        LeadToken(u, fix, true, s[1..]);
      } else {
        LeadToken(u, fix, false, s);
      }
    }
  }

  /** A '-' negates in the rewritten text where it did in the original. */
  lemma {:induction false} SameSign(u: Alphabet, fix: Fixes, start: bool, s: string)
    requires Lawful(u) && Corrects(u, fix) && s != []
    ensures Replaced(u, fix, s) != [] && Negates(u, start, Replaced(u, fix, s)) == Negates(u, start, s)
    ensures s[0] == '-' ==> Replaced(u, fix, s)[1..] == Replaced(u, fix, s[1..])
  {
    hide Corrects, Replaced;
    ReplacedHead(u, fix, s);
    if s[0] == '-' {
      ReplacedOther(u, fix, s);
      ReplacedHead(u, fix, s[1..]);
    }
  }

  lemma {:induction false} LeadToken(u: Alphabet, fix: Fixes, negate: bool, s: string)
    requires Lawful(u) && Corrects(u, fix) && s != []
    ensures Replaced(u, fix, s) != []
    ensures Lead(TokenScans(u, negate, Replaced(u, fix, s))) == Lead(TokenScans(u, negate, s))
    decreases |s|, 0
  {
    hide Scans, TokenScans, Corrects, Replaced, Rewritten, Lower, WordItem, Lead;
    ReplacedHead(u, fix, s);
    if s[0] == '"' {
      QuoteLeads(u, negate, s);
      QuoteLeads(u, negate, Replaced(u, fix, s));
    } else if u.isWord(s[0]) {
      var n := Run(u, s);
      var w, rest := s[..n], s[n..];
      assert s == w + rest;
      LeadKept(u, fix, false, rest);
      ReplacedWord(u, fix, w, rest);
      RewrittenWord(u, fix, w);
      ReplacedHead(u, fix, rest);
      WordScan(u, negate, w, rest);
      WordScan(u, negate, Rewritten(u, fix, w), Replaced(u, fix, rest));
      LeadCons(Bare(WordItem(Lower(u, w), negate)), Scans(u, false, rest));
      LeadCons(Bare(WordItem(Lower(u, Rewritten(u, fix, w)), negate)), Scans(u, false, Replaced(u, fix, rest)));
    } else {
      LeadKept(u, fix, u.isSpace(s[0]), s[1..]);
      ReplacedOther(u, fix, s);
      SkippedScan(u, negate, s);
      SkippedScan(u, negate, Replaced(u, fix, s));
      assert Replaced(u, fix, s)[1..] == Replaced(u, fix, s[1..]);
    }
  }

  lemma {:induction false} QuoteLeads(u: Alphabet, negate: bool, s: string)
    requires s != [] && s[0] == '"'
    ensures Lead(TokenScans(u, negate, s)) == 0
  {
    hide SplitWords, Scans;
  }

  // ----- the ~N, read and read again -----

  /** The digits of N end within the run. */
  lemma {:induction false} DigitsOfRun(u: Alphabet, w: string, rest: string)
    requires Lawful(u) && NoWordAhead(u, rest)
    ensures Digits(w + rest, 3) == Digits(w, 3)
  {
    var r, k := w + rest, Digits(w, 3);
    assert forall i | 0 <= i < k :: r[i] == w[i];
    if k < |w| {
      assert r[k] == w[k];
    } else if k < |r| {
      assert r[k] == rest[0];
    }
    DigitsIs(r, 3, k);
  }

  /** A '~' after a closing quote: its N is read from the run w that follows, and what is
      left of w comes before the rest. */
  lemma {:induction false} TildeReads(u: Alphabet, n: nat, w: string, rest: string)
    requires Lawful(u) && AllWord(u, w) && NoWordAhead(u, rest)
    ensures var after := ['~'] + (w + rest);
            && Near(n, NearValue(after)) == NearOf(n, w)
            && after[NearLength(after)..] == LeftOf(w) + rest
            && AllWord(u, LeftOf(w))
  {
    hide Near, Lawful, NoWordAhead, Number;
    var r, k := w + rest, Digits(w, 3);
    var after := ['~'] + r;
    DigitsOfRun(u, w, rest);
    assert after[1..] == r;
    assert r[..k] == w[..k] && after[1 + k..] == w[k..] + rest;
  }

  /** What is left of the run as a scan. */
  function LeftScan(u: Alphabet, v: string): seq<Scan> {
    if v == [] then [] else [Bare(WordItem(Lower(u, v), false))]
  }

  lemma {:induction false} LeftReads(u: Alphabet, v: string, rest: string)
    requires Lawful(u) && AllWord(u, v) && NoWordAhead(u, rest)
    ensures Scans(u, false, v + rest) == LeftScan(u, v) + Scans(u, false, rest)
  {
    hide TokenScans;
    if v == [] {
      assert v + rest == rest;
      assert [] + Scans(u, false, rest) == Scans(u, false, rest);
    } else {
      WordScan(u, false, v, rest);
      assert (v + rest)[0] == v[0];
    }
  }

  lemma {:induction false} SameWordItem(v: string, w: string)
    ensures WordItem(v, false) == WordItem(w, false) <==> v == w
  {
  }

  /** What is left of the two runs reads as one word rewritten exactly when it is one. */
  lemma {:induction false} LeftKept(u: Alphabet, fix: Fixes, v: string, v': string)
    requires Corrects(u, fix)
    ensures LeftScan(u, v') == FixedScans(u, fix, LeftScan(u, v))
       <==> (v' == [] <==> v == []) && (v != [] ==> Lower(u, v') == FixedWord(u, fix, Lower(u, v)))
  {
    hide FixedItem, FixedWord, WordItem, Lower, Corrects;
    if v != [] {
      var x := WordItem(Lower(u, v), false);
      FixedOne(u, fix, Bare(x));
      FixedWordItem(u, fix, Lower(u, v), false);
      SameWordItem(Lower(u, v'), FixedWord(u, fix, Lower(u, v)));
    }
  }

  /** Two lists that continue alike up to the next phrase are equal exactly when they start
      alike and continue alike. */
  lemma {:induction false} SplitEqual(a: seq<Scan>, b: seq<Scan>, c: seq<Scan>, d: seq<Scan>)
    requires |a| <= 1 && |c| <= 1 && (forall x | x in a :: x.Bare?) && (forall x | x in c :: x.Bare?)
    requires Lead(b) == Lead(d)
    ensures a + b == c + d <==> a == c && b == d
  {
    if a + b == c + d {
      LeadConcat(a, b);
      LeadConcat(c, d);
      assert |a| == |c|;
      assert (a + b)[..|a|] == a && (c + d)[..|c|] == c;
      assert (a + b)[|a|..] == b && (c + d)[|c|..] == d;
    }
  }

  lemma {:induction false} LeadConcat(a: seq<Scan>, b: seq<Scan>)
    requires |a| <= 1 && forall x | x in a :: x.Bare?
    ensures Lead(a + b) == |a| + Lead(b)
  {
    if a == [] {
      assert a + b == b;
    } else {
      assert a[0] in a && a == [a[0]];
      LeadCons(a[0], b);
    }
  }

  // ----- the theorem -----

  /** The scans of the rewritten text are the rewritten scans. */
  predicate Commutes(u: Alphabet, fix: Fixes, start: bool, s: string) {
    Scans(u, start, Replaced(u, fix, s)) == FixedScans(u, fix, Scans(u, start, s))
  }

  predicate TokenCommutes(u: Alphabet, fix: Fixes, negate: bool, s: string)
    requires s != [] && Replaced(u, fix, s) != []
  {
    TokenScans(u, negate, Replaced(u, fix, s)) == FixedScans(u, fix, TokenScans(u, negate, s))
  }

  /** Correction commutes with scanning exactly when it touches no ~N. */
  lemma {:induction false} CommutesExactly(u: Alphabet, fix: Fixes, start: bool, s: string)
    requires Lawful(u) && Corrects(u, fix)
    ensures Commutes(u, fix, start, s) <==> NearSafe(u, fix, s)
    decreases |s|, 4
  {
    hide TokenScans, Corrects, NearSafe, Replaced, FixedScan;
    if s == [] {
      NothingCommutes(u, fix, start);
    } else {
      SameSign(u, fix, start, s);
      if Negates(u, start, s) {
        TokenExactly(u, fix, true, s[1..]);
        assert s == ['-'] + s[1..];
        NoQuoteIsSafe(u, fix, ['-'], s[1..]);
      } else {
        TokenExactly(u, fix, false, s);
      }
    }
  }

  lemma {:induction false} NothingCommutes(u: Alphabet, fix: Fixes, start: bool)
    ensures Commutes(u, fix, start, []) && NearSafe(u, fix, [])
  {
    ReplacedNothing(u, fix);
  }

  lemma {:induction false} TokenExactly(u: Alphabet, fix: Fixes, negate: bool, s: string)
    requires Lawful(u) && Corrects(u, fix) && s != []
    ensures Replaced(u, fix, s) != []
    ensures TokenCommutes(u, fix, negate, s) <==> NearSafe(u, fix, s)
    decreases |s|, 3
  {
    hide Scans, TokenScans, Corrects, NearSafe, Replaced, FixedScan, Lawful, SplitWords, SafeAfter;
    ReplacedHead(u, fix, s);
    Signs(u);
    if s[0] == '"' {
      var k := QuoteEnd(s[1..]);
      var body := s[1..][..k];
      if 1 + k == |s| {
        assert s == ['"'] + body && body == s[1..];
        OpenExactly(u, fix, negate, body);
      } else {
        var after := s[2 + k..];
        assert s == ['"'] + body + ['"'] + after;
        ClosedExactly(u, fix, negate, body, after);
      }
    } else if u.isWord(s[0]) {
      var n := Run(u, s);
      assert s == s[..n] + s[n..];
      WordExactly(u, fix, negate, s[..n], s[n..]);
    } else {
      CommutesExactly(u, fix, u.isSpace(s[0]), s[1..]);
      ReplacedOther(u, fix, s);
      SkippedScan(u, negate, s);
      SkippedScan(u, negate, Replaced(u, fix, s));
      assert Replaced(u, fix, s)[1..] == Replaced(u, fix, s[1..]);
      assert s == [s[0]] + s[1..];
      NoQuoteIsSafe(u, fix, [s[0]], s[1..]);
    }
  }

  lemma {:induction false} OpenExactly(u: Alphabet, fix: Fixes, negate: bool, body: string)
    requires Lawful(u) && Corrects(u, fix) && '"' !in body
    ensures var s := ['"'] + body;
            Replaced(u, fix, s) != [] && TokenCommutes(u, fix, negate, s) && NearSafe(u, fix, s)
  {
    hide TokenScans, Corrects, NearSafe, Replaced, Lawful, SplitWords, FixedWords;
    var s := ['"'] + body;
    Signs(u);
    assert s[1..] == body;
    ReplacedOther(u, fix, s);
    NoQuoteAdded(u, fix, body);
    ReplacedSplit(u, fix, body);
    OpenQuoteScan(u, negate, body);
    OpenQuoteScan(u, negate, Replaced(u, fix, body));
    FixedOne(u, fix, Quoted(SplitWords(u, body), negate, 0));
    QuoteSafe(u, fix, body, []);
  }

  lemma {:induction false} WordExactly(u: Alphabet, fix: Fixes, negate: bool, w: string, rest: string)
    requires Lawful(u) && Corrects(u, fix) && w != [] && AllWord(u, w) && NoWordAhead(u, rest)
    ensures Replaced(u, fix, w + rest) != []
    ensures TokenCommutes(u, fix, negate, w + rest) <==> NearSafe(u, fix, w + rest)
    decreases |w| + |rest|, 2
  {
    hide Scans, TokenScans, Corrects, NearSafe, Replaced, FixedItem, Lawful, Rewritten, WordItem, Lower, FixedWord;
    CommutesExactly(u, fix, false, rest);
    ReplacedWord(u, fix, w, rest);
    RewrittenWord(u, fix, w);
    ReplacedHead(u, fix, rest);
    WordScan(u, negate, w, rest);
    WordScan(u, negate, Rewritten(u, fix, w), Replaced(u, fix, rest));
    FixedWordItem(u, fix, Lower(u, w), negate);
    var x, y := Bare(WordItem(Lower(u, w), negate)), Bare(WordItem(Lower(u, Rewritten(u, fix, w)), negate));
    FixedOne(u, fix, x);
    FixedConcat(u, fix, [x], Scans(u, false, rest));
    ConsEqual(y, Scans(u, false, Replaced(u, fix, rest)), FixedScans(u, fix, Scans(u, false, rest)));
    NoQuoteIn(u, w);
    NoQuoteIsSafe(u, fix, w, rest);
  }

  lemma {:induction false} NoQuoteIn(u: Alphabet, w: string)
    requires Lawful(u) && AllWord(u, w)
    ensures '"' !in w
  {
  }

  lemma {:induction false} ConsEqual(x: Scan, a: seq<Scan>, b: seq<Scan>)
    ensures [x] + a == [x] + b <==> a == b
  {
    if [x] + a == [x] + b {
      assert ([x] + a)[1..] == a && ([x] + b)[1..] == b;
    }
  }

  lemma {:induction false} ClosedExactly(u: Alphabet, fix: Fixes, negate: bool, body: string, after: string)
    requires Lawful(u) && Corrects(u, fix) && '"' !in body
    ensures var s := ['"'] + body + ['"'] + after;
            Replaced(u, fix, s) != [] && (TokenCommutes(u, fix, negate, s) <==> NearSafe(u, fix, s))
    decreases 2 + |body| + |after|, 1
  {
    hide Scans, TokenScans, Corrects, NearSafe, Replaced, Lawful, SplitWords, FixedWords, SafeAfter, NearValue, Near;
    var body', after' := Replaced(u, fix, body), Replaced(u, fix, after);
    ReplacedQuote(u, fix, body, after);
    NoQuoteAdded(u, fix, body);
    ReplacedSplit(u, fix, body);
    QuoteScan(u, negate, body, after);
    QuoteScan(u, negate, body', after');
    QuoteSafe(u, fix, body, after);
    var words := SplitWords(u, body);
    assert |SplitWords(u, body')| == |words| by { SameCount(u, fix, words); }
    var x := Quoted(words, negate, Near(|words|, NearValue(after)));
    var y := Quoted(FixedWords(u, fix, words), negate, Near(|words|, NearValue(after')));
    var a, b := Scans(u, false, after[NearLength(after)..]), Scans(u, false, after'[NearLength(after')..]);
    FixedOne(u, fix, x);
    FixedConcat(u, fix, [x], a);
    HeadEqual(FixedScan(u, fix, x), y, FixedScans(u, fix, a), b);
    NearExactly(u, fix, |words|, after);
  }

  lemma {:induction false} SameCount(u: Alphabet, fix: Fixes, words: seq<string>)
    ensures |FixedWords(u, fix, words)| == |words|
  {
  }

  lemma {:induction false} HeadEqual(x: Scan, y: Scan, a: seq<Scan>, b: seq<Scan>)
    ensures [y] + b == [x] + a <==> y == x && b == a
  {
    if [y] + b == [x] + a {
      assert ([y] + b)[0] == ([x] + a)[0];
      assert ([y] + b)[1..] == b && ([x] + a)[1..] == a;
    }
  }

  /** What follows a closing quote. */
  lemma {:induction false} NearExactly(u: Alphabet, fix: Fixes, n: nat, after: string)
    requires Lawful(u) && Corrects(u, fix)
    ensures var after' := Replaced(u, fix, after);
            && Near(n, NearValue(after')) == Near(n, NearValue(after))
            && Scans(u, false, after'[NearLength(after')..])
            == FixedScans(u, fix, Scans(u, false, after[NearLength(after)..]))
            <==> SafeAfter(u, fix, n, after) && NearSafe(u, fix, after)
    decreases |after|, 6
  {
    hide Scans, Corrects, NearSafe, Replaced, Lawful, NearValue, Near, KeepsNear, FixedScans;
    Signs(u);
    ReplacedHead(u, fix, after);
    if after == [] || after[0] != '~' {
      NoNear(after);
      NoNear(Replaced(u, fix, after));
      CommutesExactly(u, fix, false, after);
    } else {
      var r := after[1..];
      var k := Run(u, r);
      assert after == ['~'] + (r[..k] + r[k..]);
      assert SafeAfter(u, fix, n, after) <==> KeepsNear(u, fix, n, r[..k]);
      TildeExactly(u, fix, n, r[..k], r[k..]);
    }
  }

  lemma {:induction false} NoNear(s: string)
    requires s == [] || s[0] != '~'
    ensures NearValue(s) == 0 && NearLength(s) == 0 && s[NearLength(s)..] == s
  {
  }

  lemma {:induction false} TildeExactly(u: Alphabet, fix: Fixes, n: nat, w: string, rest: string)
    requires Lawful(u) && Corrects(u, fix) && AllWord(u, w) && NoWordAhead(u, rest)
    ensures var after := ['~'] + (w + rest);
            var after' := Replaced(u, fix, after);
            && Near(n, NearValue(after')) == Near(n, NearValue(after))
            && Scans(u, false, after'[NearLength(after')..])
            == FixedScans(u, fix, Scans(u, false, after[NearLength(after)..]))
            <==> KeepsNear(u, fix, n, w) && NearSafe(u, fix, after)
    decreases 1 + |w| + |rest|, 5
  {
    hide Scans, Corrects, NearSafe, Replaced, Lawful, NearValue, NearLength, Near, FixedScans, LeftOf, NearOf,
         Rewritten, FixedWord, AllWord, NoWordAhead, Lead, LeftScan, Lower;
    var after, w', rest' := ['~'] + (w + rest), Rewritten(u, fix, w), Replaced(u, fix, rest);
    TildeReplaced(u, fix, w, rest);
    TildeReads(u, n, w, rest);
    TildeReads(u, n, w', rest');
    var v, v' := LeftOf(w), LeftOf(w');
    LeftReads(u, v, rest);
    LeftReads(u, v', rest');
    LeftKept(u, fix, v, v');
    CommutesExactly(u, fix, false, rest);
    var a, b := Scans(u, false, rest), Scans(u, false, rest');
    FixedConcat(u, fix, LeftScan(u, v), a);
    LeadKept(u, fix, false, rest);
    LeadFixed(u, fix, a);
    LeftIsBare(u, fix, v);
    LeftIsBare(u, fix, v');
    SplitEqual(LeftScan(u, v'), b, FixedScans(u, fix, LeftScan(u, v)), FixedScans(u, fix, a));
    NoQuoteIn(u, w);
    assert after == ['~'] + w + rest;
    NoQuoteIsSafe(u, fix, ['~'] + w, rest);
  }

  lemma {:induction false} LeftIsBare(u: Alphabet, fix: Fixes, v: string)
    ensures var a := LeftScan(u, v); |a| <= 1 && forall x | x in a :: x.Bare?
    ensures var a := FixedScans(u, fix, LeftScan(u, v)); |a| <= 1 && forall x | x in a :: x.Bare?
  {
    hide FixedItem, WordItem, Lower;
  }

  lemma {:induction false} TildeReplaced(u: Alphabet, fix: Fixes, w: string, rest: string)
    requires Lawful(u) && Corrects(u, fix) && AllWord(u, w) && NoWordAhead(u, rest)
    ensures Replaced(u, fix, ['~'] + (w + rest)) == ['~'] + (Rewritten(u, fix, w) + Replaced(u, fix, rest))
    ensures AllWord(u, Rewritten(u, fix, w)) && NoWordAhead(u, Replaced(u, fix, rest))
  {
    hide Replaced, Lower;
    Signs(u);
    var s := ['~'] + (w + rest);
    assert s[1..] == w + rest && s[0] == '~';
    ReplacedOther(u, fix, s);
    ReplacedHead(u, fix, rest);
    if w == [] {
      assert w + rest == rest;
      EmptyKey(u, fix);
      assert Rewritten(u, fix, w) + Replaced(u, fix, rest) == Replaced(u, fix, rest);
    } else {
      ReplacedWord(u, fix, w, rest);
      RewrittenWord(u, fix, w);
    }
  }

  lemma {:induction false} EmptyKey(u: Alphabet, fix: Fixes)
    requires Corrects(u, fix)
    ensures Rewritten(u, fix, []) == []
  {
    assert |Key(u, [])| == 0;
  }

  /** Reading a rewritten search string gives the original query, word by word rewritten. */
  lemma {:induction false} RewriteCommutesWithParsing(u: Alphabet, fix: Fixes, s: string)
    requires Lawful(u) && Corrects(u, fix) && NearSafe(u, fix, s)
    ensures Parsed(u, Replaced(u, fix, s)) == FixedQuery(u, fix, Parsed(u, s))
  {
    hide Items, Scans, Replaced, Groups, Positives, NearSafe, Corrects, FixedScans, FixedItems;
    var xs := Items(u, true, s);
    CommutesExactly(u, fix, true, s);
    ItemsOfScans(u, true, s);
    ItemsOfScans(u, true, Replaced(u, fix, s));
    FixedContributions(u, fix, Scans(u, true, s));
    FixedGroups(u, fix, xs, []);
    assert FixedGroup(u, fix, []) == [];
    FixedPositives(u, fix, Groups(xs, []));
  }
}
