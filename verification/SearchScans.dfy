/**
  What the parser scans, phrase by phrase: the items of a search string, with a mark for
  every phrase, also one without words.
 */
module SearchScans {
  import opened SearchText
  import opened SearchRewrite

  datatype Scan = Quoted(words: seq<string>, negate: bool, near: nat) | Bare(item: Item)

  /** The proximity of a phrase: it takes two words, and a cap. */
  function Near(words: nat, near: nat): nat {
    if words == 2 && near > 0 then Min(near, MAX_NEAR) else 0
  }

  function Scans(u: Alphabet, start: bool, s: string): seq<Scan>
    decreases |s|, 1
  {
    if s == [] then []
    else if Negates(u, start, s) then TokenScans(u, true, s[1..])
    else TokenScans(u, false, s)
  }

  function TokenScans(u: Alphabet, negate: bool, s: string): seq<Scan>
    requires s != []
    decreases |s|, 0
  {
    if s[0] == '"' then
      var k := QuoteEnd(s[1..]);
      var after := if 1 + k < |s| then s[2 + k..] else [];
      var m := NearLength(after);
      var last := if m > 0 then after[m - 1] else '"';
      var words := SplitWords(u, s[1..1 + k]);
      [Quoted(words, negate, Near(|words|, NearValue(after)))] + Scans(u, u.isSpace(last), after[m..])
    else if u.isWord(s[0]) then
      var n := Run(u, s);
      [Bare(WordItem(Lower(u, s[..n]), negate))] + Scans(u, u.isSpace(s[n - 1]), s[n..])
    else Scans(u, u.isSpace(s[0]), s[1..])
  }

  // ----- scans and items -----

  function Contributes(x: Scan): seq<Item> {
    match x
    case Bare(item) => [item]
    case Quoted(words, negate, near) => if words == [] then [] else [One(Term(words, false, negate, near))]
  }

  function Contributions(xs: seq<Scan>): seq<Item> {
    if xs == [] then [] else Contributes(xs[0]) + Contributions(xs[1..])
  }

  lemma {:induction false} Contributed(x: Scan, xs: seq<Scan>)
    ensures Contributions([x] + xs) == Contributes(x) + Contributions(xs)
  {
    assert ([x] + xs)[1..] == xs;
  }

  /** The items are what the scans contribute. */
  lemma {:induction false} ItemsOfScans(u: Alphabet, start: bool, s: string)
    ensures Items(u, start, s) == Contributions(Scans(u, start, s))
    decreases |s|, 1
  {
    hide TokenItems, TokenScans;
    if s != [] {
      if Negates(u, start, s) {
        TokenOfScans(u, true, s[1..]);
      } else {
        TokenOfScans(u, false, s);
      }
    }
  }

  lemma {:induction false} TokenOfScans(u: Alphabet, negate: bool, s: string)
    requires s != []
    ensures TokenItems(u, negate, s) == Contributions(TokenScans(u, negate, s))
    decreases |s|, 0
  {
    hide Items, Scans, SplitWords, Contributions, QuoteEnd, Lower;
    if s[0] == '"' {
      var k := QuoteEnd(s[1..]);
      var after := if 1 + k < |s| then s[2 + k..] else [];
      var m := NearLength(after);
      var last := if m > 0 then after[m - 1] else '"';
      var words := SplitWords(u, s[1..1 + k]);
      ItemsOfScans(u, u.isSpace(last), after[m..]);
      Contributed(Quoted(words, negate, Near(|words|, NearValue(after))), Scans(u, u.isSpace(last), after[m..]));
    } else if u.isWord(s[0]) {
      var n := Run(u, s);
      ItemsOfScans(u, u.isSpace(s[n - 1]), s[n..]);
      Contributed(Bare(WordItem(Lower(u, s[..n]), negate)), Scans(u, u.isSpace(s[n - 1]), s[n..]));
    } else {
      ItemsOfScans(u, u.isSpace(s[0]), s[1..]);
    }
  }

  // ----- scans rewritten -----

  function FixedScan(u: Alphabet, fix: Fixes, x: Scan): Scan {
    match x
    case Bare(item) => Bare(FixedItem(u, fix, item))
    case Quoted(words, negate, near) => Quoted(FixedWords(u, fix, words), negate, near)
  }

  function FixedScans(u: Alphabet, fix: Fixes, xs: seq<Scan>): seq<Scan> {
    seq(|xs|, i requires 0 <= i < |xs| => FixedScan(u, fix, xs[i]))
  }

  lemma {:induction false} FixedConcat(u: Alphabet, fix: Fixes, a: seq<Scan>, b: seq<Scan>)
    ensures FixedScans(u, fix, a + b) == FixedScans(u, fix, a) + FixedScans(u, fix, b)
  {
    hide FixedScan;
  }

  lemma {:induction false} FixedOne(u: Alphabet, fix: Fixes, x: Scan)
    ensures FixedScans(u, fix, [x]) == [FixedScan(u, fix, x)] && FixedScans(u, fix, []) == []
  {
    hide FixedScan;
  }

  lemma {:induction false} FixedContributes(u: Alphabet, fix: Fixes, x: Scan)
    ensures Contributes(FixedScan(u, fix, x)) == FixedItems(u, fix, Contributes(x))
  {
  }

  lemma {:induction false} FixedContributions(u: Alphabet, fix: Fixes, xs: seq<Scan>)
    ensures Contributions(FixedScans(u, fix, xs)) == FixedItems(u, fix, Contributions(xs))
  {
    hide FixedScan, FixedItem, Contributes;
    if xs != [] {
      var ys := FixedScans(u, fix, xs);
      assert ys[1..] == FixedScans(u, fix, xs[1..]);
      FixedContributes(u, fix, xs[0]);
      FixedContributions(u, fix, xs[1..]);
    }
  }

  // ----- bare words before the first phrase -----

  function Lead(xs: seq<Scan>): nat {
    if xs == [] || xs[0].Quoted? then 0 else 1 + Lead(xs[1..])
  }

  lemma {:induction false} LeadFixed(u: Alphabet, fix: Fixes, xs: seq<Scan>)
    ensures Lead(FixedScans(u, fix, xs)) == Lead(xs)
  {
    hide FixedWord, FixedItem;
    if xs != [] && xs[0].Bare? {
      assert FixedScans(u, fix, xs)[1..] == FixedScans(u, fix, xs[1..]);
      LeadFixed(u, fix, xs[1..]);
    }
  }

  lemma {:induction false} LeadCons(x: Scan, xs: seq<Scan>)
    ensures Lead([x] + xs) == if x.Bare? then 1 + Lead(xs) else 0
  {
    assert ([x] + xs)[1..] == xs;
  }

  // ----- reading one token -----

  lemma {:induction false} WordScan(u: Alphabet, negate: bool, w: string, rest: string)
    requires Lawful(u) && w != [] && AllWord(u, w) && NoWordAhead(u, rest)
    ensures TokenScans(u, negate, w + rest) == [Bare(WordItem(Lower(u, w), negate))] + Scans(u, false, rest)
  {
    hide Scans;
    WordThen(u, w, rest);
    assert u.isWord(w[0]) && u.isWord(w[|w| - 1]);
  }

  lemma {:induction false} QuoteScan(u: Alphabet, negate: bool, body: string, after: string)
    requires Lawful(u) && '"' !in body
    ensures TokenScans(u, negate, ['"'] + body + ['"'] + after)
         == [Quoted(SplitWords(u, body), negate, Near(|SplitWords(u, body)|, NearValue(after)))]
          + Scans(u, false, after[NearLength(after)..])
  {
    hide Scans, SplitWords;
    var s := ['"'] + body + ['"'] + after;
    assert s[1..] == body + ['"'] + after;
    assert s[1..][..|body|] == body;
    QuoteEndIs(s[1..], |body|);
    assert s[1..1 + |body|] == body && s[2 + |body|..] == after;
    var m := NearLength(after);
    if m > 1 {
      assert Digit(after[1..][m - 2]);
    }
  }

  lemma {:induction false} OpenQuoteScan(u: Alphabet, negate: bool, body: string)
    requires '"' !in body
    ensures TokenScans(u, negate, ['"'] + body) == [Quoted(SplitWords(u, body), negate, 0)]
  {
    hide SplitWords;
    var s := ['"'] + body;
    assert s[1..] == body && body[..|body|] == body;
    QuoteEndIs(s[1..], |body|);
    assert s[1..1 + |body|] == body;
    assert NearValue([]) == 0 && NearLength([]) == 0;
  }

  lemma {:induction false} SkippedScan(u: Alphabet, negate: bool, s: string)
    requires s != [] && s[0] != '"' && !u.isWord(s[0])
    ensures TokenScans(u, negate, s) == Scans(u, u.isSpace(s[0]), s[1..])
  {
  }
}
