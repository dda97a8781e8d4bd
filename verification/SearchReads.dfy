/**
  A search string said without its parser: the text is words, phrases and runes between
  them, each ending where it could not go on; every text can be read so, and the parser
  returns what such a reading gives.
 */
module SearchReads {
  import opened SearchText

  /** A part of a search string. near holds the digits after the ~ of a phrase. */
  datatype Part =
    | Between(c: char)
    | Bare(negate: bool, w: string)
    | Quoted(negate: bool, text: string, closed: bool, near: Near)

  datatype Near = Far | Within(digits: string)

  function Minus(negate: bool): string {
    if negate then "-" else ""
  }

  function NearSpelled(near: Near): string {
    match near
    case Far => ""
    case Within(ds) => "~" + ds
  }

  function Spelled(p: Part): string {
    match p
    case Between(c) => [c]
    case Bare(negate, w) => Minus(negate) + w
    case Quoted(negate, text, closed, near) =>
      Minus(negate) + "\"" + text + (if closed then "\"" + NearSpelled(near) else "")
  }

  /** A minus before what follows would negate it. */
  predicate MayNegate(u: Alphabet, start: bool, rest: string) {
    start && rest != [] && (rest[0] == '"' || u.isWord(rest[0]))
  }

  /** The ~N ends where it does: at most three digits, and no ~ is left over. */
  predicate NearEnds(near: Near, rest: string) {
    match near
    case Far => rest == [] || rest[0] != '~'
    case Within(ds) =>
      && |ds| <= 3 && (forall i | 0 <= i < |ds| :: '0' <= ds[i] <= '9')
      && (|ds| == 3 || rest == [] || !('0' <= rest[0] <= '9'))
  }

  /** The part stands before rest, at the start of the text or after a space if start. */
  predicate Fits(u: Alphabet, start: bool, p: Part, rest: string) {
    match p
    case Between(c) => c != '"' && !u.isWord(c) && !(c == '-' && MayNegate(u, start, rest))
    case Bare(negate, w) => w != [] && AllWord(u, w) && (rest == [] || !u.isWord(rest[0])) && (negate ==> start)
    case Quoted(negate, text, closed, near) =>
      '"' !in text && (negate ==> start) && if closed then NearEnds(near, rest) else rest == [] && near.Far?
  }

  /** The text consists of these parts. */
  predicate Consists(u: Alphabet, start: bool, s: string, ps: seq<Part>)
    decreases |ps|
  {
    if ps == [] then s == []
    else
      var t := Spelled(ps[0]);
      && t <= s && t != [] && Fits(u, start, ps[0], s[|t|..])
      && Consists(u, u.isSpace(t[|t| - 1]), s[|t|..], ps[1..])
  }

  // ----- what a reading gives -----

  /** The value of a decimal number. */
  function Value(ds: string): int {
    if ds == [] then 0 else Value(ds[..|ds| - 1]) * 10 + (ds[|ds| - 1] as int - '0' as int)
  }

  /** At most ten words apart, for two words; a ~ without a number says nothing. */
  function Apart(near: Near, words: seq<string>): int {
    if near.Far? || |words| != 2 || Value(near.digits) <= 0 then 0
    else if Value(near.digits) > 10 then 10
    else Value(near.digits)
  }

  /** A word that is OR separates; other words are terms of their own, a phrase is one term. */
  function Gives(u: Alphabet, p: Part): seq<Item> {
    match p
    case Between(_) => []
    case Bare(negate, w) =>
      if !negate && Lower(u, w) == "or" then [Or] else [One(Term([Lower(u, w)], false, negate, 0))]
    case Quoted(negate, text, _, near) =>
      var words := SplitWords(u, text);
      if words == [] then []
         else [One(Term(words, false, negate, if Apart(near, words) > 0 then Apart(near, words) else 0))]
  }

  function GivesAll(u: Alphabet, ps: seq<Part>): seq<Item> {
    if ps == [] then [] else Gives(u, ps[0]) + GivesAll(u, ps[1..])
  }

  /** Position of the first OR. */
  function OrAt(xs: seq<Item>): (k: nat)
    ensures k <= |xs| && (k < |xs| ==> xs[k].Or?) && forall i | 0 <= i < k :: xs[i].One?
  {
    if xs == [] || xs[0].Or? then 0 else 1 + OrAt(xs[1..])
  }

  /** The terms between the OR's. */
  function Blocks(xs: seq<Item>): Query
    decreases |xs|
  {
    var k := OrAt(xs);
    [seq(k, i requires 0 <= i < k => xs[i].term)] + if k == |xs| then [] else Blocks(xs[k + 1..])
  }

  // ----- the parser gives it -----

  lemma {:induction false} ValueIs(ds: string)
    requires forall i | 0 <= i < |ds| :: Digit(ds[i])
    ensures Value(ds) == Number(ds)
  {
    if ds != [] {
      ValueIs(ds[..|ds| - 1]);
    }
  }

  /** The ~N of a closed phrase. */
  lemma {:induction false} NearIs(near: Near, rest: string)
    requires NearEnds(near, rest)
    ensures var s := NearSpelled(near) + rest;
            && NearLength(s) == |NearSpelled(near)|
            && NearValue(s) == if near.Far? then 0 else Number(near.digits)
  {
    var s := NearSpelled(near) + rest;
    if near.Within? {
      var ds := near.digits;
      assert s[1..] == ds + rest;
      DigitsIs(s[1..], 3, |ds|);
      assert s[1..][..|ds|] == ds;
    }
  }

  lemma {:induction false} PhraseGives(u: Alphabet, negate: bool, text: string, closed: bool, near: Near)
    requires near.Within? ==> forall i | 0 <= i < |near.digits| :: Digit(near.digits[i])
    ensures PhraseItems(SplitWords(u, text), negate, if near.Far? then 0 else Number(near.digits))
         == Gives(u, Quoted(negate, text, closed, near))
  {
    hide SplitWords, Number, Value;
    if near.Within? {
      ValueIs(near.digits);
    }
  }

  lemma {:induction false} ClosedGives(u: Alphabet, negate: bool, text: string, near: Near, rest: string)
    requires '"' !in text && NearEnds(near, rest)
    ensures var s := "\"" + text + "\"" + NearSpelled(near) + rest;
            var last := if near.Far? then '"' else NearSpelled(near)[|NearSpelled(near)| - 1];
            TokenItems(u, negate, s)
            == Gives(u, Quoted(negate, text, true, near)) + Items(u, u.isSpace(last), rest)
  {
    hide SplitWords, Items, NearLength, NearValue, Gives, NearEnds, TokenItems, QuoteEnd, NearSpelled;
    var near', n := NearSpelled(near), |text|;
    var s := "\"" + text + "\"" + near' + rest;
    PhraseText(text, near', rest);
    QuoteEndIs(s[1..], n);
    ClosedPhrase(u, negate, s, 0, 1 + n);
    NearIs(near, rest);
    NearDigits(near, rest);
    NearSpelledLast(near);
    PhraseGives(u, negate, text, true, near);
  }

  /** Where the parts of a closed phrase stand. */
  lemma {:induction false} PhraseText(text: string, near: string, rest: string)
    ensures var s, n := "\"" + text + "\"" + near + rest, |text|;
            && |s| == n + 2 + |near| + |rest| && s[0..] == s && s[0] == '"' && s[1 + n] == '"'
            && s[1..1 + n] == text && s[1..][..n] == text && s[1..][n] == '"'
            && s[2 + n..] == near + rest && s[2 + n + |near|..] == rest
            && s[1 + n + |near|] == if near == [] then '"' else near[|near| - 1]
  {
    var s, n := "\"" + text + "\"" + near + rest, |text|;
    assert s == ("\"" + text + "\"") + (near + rest);
    assert near != [] ==> s[1 + n + |near|] == (near + rest)[|near| - 1];
  }

  lemma {:induction false} NearSpelledLast(near: Near)
    ensures near.Far? <==> NearSpelled(near) == []
  {
  }

  lemma {:induction false} NearDigits(near: Near, rest: string)
    requires NearEnds(near, rest)
    ensures near.Within? ==> forall i | 0 <= i < |near.digits| :: Digit(near.digits[i])
  {
  }

  lemma {:induction false} OpenGives(u: Alphabet, negate: bool, text: string)
    requires '"' !in text
    ensures TokenItems(u, negate, "\"" + text) == Gives(u, Quoted(negate, text, false, Far))
  {
    hide SplitWords, Items, NearLength, NearValue;
    var s := "\"" + text;
    assert s[1..] == text && text[..|text|] == text && s[1..1 + |text|] == text;
    QuoteEndIs(text, |text|);
    assert NearLength([]) == 0 && NearValue([]) == 0 by { NoNear(); }
    ItemsOfNothing(u, u.isSpace('"'));
    var none: string := [];
    assert none[0..] == none;
  }

  lemma {:induction false} NoNear()
    ensures NearLength([]) == 0 && NearValue([]) == 0
  {
  }

  lemma {:induction false} WordGives(u: Alphabet, negate: bool, w: string, rest: string)
    requires w != [] && w[0] != '"' && AllWord(u, w) && (rest == [] || !u.isWord(rest[0]))
    ensures TokenItems(u, negate, w + rest)
         == Gives(u, Bare(negate, w)) + Items(u, u.isSpace(w[|w| - 1]), rest)
  {
    hide Items;
    var s := w + rest;
    assert s[..|w|] == w && s[|w|..] == rest && s[0] == w[0];
    RunIs(u, s, |w|);
  }

  /** A negating minus is read with what follows it. */
  lemma {:induction false} MinusReads(u: Alphabet, start: bool, negate: bool, s: string)
    requires Lawful(u) && s != [] && (s[0] == '"' || u.isWord(s[0])) && (negate ==> start)
    ensures Items(u, start, Minus(negate) + s) == TokenItems(u, negate, s)
  {
    hide TokenItems;
    var t := Minus(negate) + s;
    if negate {
      assert t[1..] == s && t[1] == s[0];
    } else {
      assert t == s;
    }
  }

  /** One part, and what follows it. */
  lemma {:induction false} PartGives(u: Alphabet, start: bool, p: Part, rest: string)
    requires Lawful(u) && Fits(u, start, p, rest)
    ensures var t := Spelled(p);
            t != [] && Items(u, start, t + rest) == Gives(u, p) + Items(u, u.isSpace(t[|t| - 1]), rest)
  {
    hide Items, Gives, TokenItems, NearEnds, MayNegate, AllWord;
    match p {
      case Between(c) =>
        BetweenGives(u, start, c, rest);
      case Bare(negate, w) =>
        BareGives(u, start, negate, w, rest);
      case Quoted(negate, text, closed, near) =>
        if closed {
          ClosedPart(u, start, negate, text, near, rest);
        } else {
          OpenPart(u, start, negate, text);
          assert Spelled(p) + rest == Spelled(p);
          ItemsOfNothing(u, u.isSpace(Spelled(p)[|Spelled(p)| - 1]));
        }
    }
  }

  lemma {:induction false} BareGives(u: Alphabet, start: bool, negate: bool, w: string, rest: string)
    requires Lawful(u) && Fits(u, start, Bare(negate, w), rest)
    ensures var t := Spelled(Bare(negate, w));
            t != [] && Items(u, start, t + rest) == Gives(u, Bare(negate, w)) + Items(u, u.isSpace(t[|t| - 1]), rest)
  {
    hide Lawful, Items, Gives, TokenItems, AllWord;
    WordFirst(u, w);
    assert Spelled(Bare(negate, w)) + rest == Minus(negate) + (w + rest);
    MinusReads(u, start, negate, w + rest);
    WordGives(u, negate, w, rest);
  }

  lemma {:induction false} ClosedPart(u: Alphabet, start: bool, negate: bool, text: string, near: Near, rest: string)
    requires Lawful(u) && '"' !in text && NearEnds(near, rest) && (negate ==> start)
    ensures var p := Quoted(negate, text, true, near);
            var t := Spelled(p);
            t != [] && Items(u, start, t + rest) == Gives(u, p) + Items(u, u.isSpace(t[|t| - 1]), rest)
  {
    hide Lawful, Items, Gives, TokenItems, NearEnds, NearSpelled;
    var s := "\"" + text + "\"" + NearSpelled(near) + rest;
    assert Spelled(Quoted(negate, text, true, near)) + rest == Minus(negate) + s;
    MinusReads(u, start, negate, s);
    ClosedGives(u, negate, text, near, rest);
    LastOfClosed(negate, text, near);
  }

  lemma {:induction false} LastOfClosed(negate: bool, text: string, near: Near)
    ensures var t, n := Spelled(Quoted(negate, text, true, near)), NearSpelled(near);
            t != [] && t[|t| - 1] == (if near.Far? then '"' else n[|n| - 1])
  {
  }

  lemma {:induction false} OpenPart(u: Alphabet, start: bool, negate: bool, text: string)
    requires Lawful(u) && '"' !in text && (negate ==> start)
    ensures var p := Quoted(negate, text, false, Far); Spelled(p) != [] && Items(u, start, Spelled(p)) == Gives(u, p)
  {
    hide Lawful, Items, Gives, TokenItems;
    var p, s := Quoted(negate, text, false, Far), "\"" + text;
    assert Spelled(p) == Minus(negate) + s;
    MinusReads(u, start, negate, s);
    OpenGives(u, negate, text);
  }

  lemma {:induction false} WordFirst(u: Alphabet, w: string)
    requires Lawful(u) && w != [] && AllWord(u, w)
    ensures w[0] != '"' && u.isWord(w[0])
  {
  }

  lemma {:induction false} BetweenGives(u: Alphabet, start: bool, c: char, rest: string)
    requires Fits(u, start, Between(c), rest)
    ensures Items(u, start, [c] + rest) == Items(u, u.isSpace(c), rest) && Gives(u, Between(c)) == []
  {
    var s := [c] + rest;
    assert s[1..] == rest && !Negates(u, start, s);
    SkippedRune(u, false, s);
  }

  lemma {:induction false} ReadingGives(u: Alphabet, start: bool, s: string, ps: seq<Part>)
    requires Lawful(u) && Consists(u, start, s, ps)
    ensures Items(u, start, s) == GivesAll(u, ps)
    decreases |ps|
  {
    hide Lawful, Fits, Gives, Items, Spelled;
    if ps == [] {
      ItemsOfNothing(u, start);
    } else {
      var t := Spelled(ps[0]);
      assert s == t + s[|t|..];
      PartGives(u, start, ps[0], s[|t|..]);
      ReadingGives(u, u.isSpace(t[|t| - 1]), s[|t|..], ps[1..]);
    }
  }

  // ----- every text can be read -----

  lemma {:induction false} FirstNear(s: string) returns (near: Near)
    ensures NearSpelled(near) <= s && NearEnds(near, s[|NearSpelled(near)|..])
  {
    if s != [] && s[0] == '~' {
      var k := Digits(s[1..], 3);
      near := Within(s[1..][..k]);
      assert NearSpelled(near) == s[..1 + k];
      assert k < |s[1..]| ==> s[1..][k] == s[1 + k..][0];
    } else {
      near := Far;
    }
  }

  lemma {:induction false} FirstQuoted(u: Alphabet, start: bool, negate: bool, s: string) returns (p: Part)
    requires s != [] && s[0] == '"' && (negate ==> start)
    ensures var t := Minus(negate) + s;
            Spelled(p) <= t && Spelled(p) != [] && Fits(u, start, p, t[|Spelled(p)|..])
  {
    hide NearEnds, NearSpelled, QuoteEnd;
    var k := QuoteEnd(s[1..]);
    var text := s[1..][..k];
    if 1 + k < |s| {
      var near := FirstNear(s[2 + k..]);
      p := Quoted(negate, text, true, near);
      SplitQuoted(negate, s, k, near);
    } else {
      p := Quoted(negate, text, false, Far);
      assert Minus(negate) + s == Spelled(p) + [];
    }
  }

  lemma {:induction false} SplitQuoted(negate: bool, s: string, k: nat, near: Near)
    requires 1 + k < |s| && s[0] == '"' && s[1 + k] == '"' && NearSpelled(near) <= s[2 + k..]
    ensures var t := Spelled(Quoted(negate, s[1..][..k], true, near));
            t != [] && Minus(negate) + s == t + s[2 + k..][|NearSpelled(near)|..]
  {
    hide NearSpelled;
    var n, text, rest := NearSpelled(near), s[1..][..k], s[2 + k..];
    SplitAtQuotes(s, k);
    assert rest == n + rest[|n|..];
    Regrouped(Minus(negate), "\"" + text + "\"", n, rest[|n|..]);
    assert Minus(negate) + "\"" + text + ("\"" + n) == Minus(negate) + ("\"" + text + "\"") + n;
  }

  lemma {:induction false} SplitAtQuotes(s: string, k: nat)
    requires 1 + k < |s| && s[0] == '"' && s[1 + k] == '"'
    ensures s == "\"" + s[1..][..k] + "\"" + s[2 + k..]
  {
  }

  lemma {:induction false} Regrouped(a: string, b: string, c: string, d: string)
    ensures a + (b + (c + d)) == a + b + c + d
  {
  }

  lemma {:induction false} FirstBare(u: Alphabet, start: bool, negate: bool, s: string) returns (p: Part)
    requires s != [] && u.isWord(s[0]) && (negate ==> start)
    ensures var t := Minus(negate) + s;
            Spelled(p) <= t && Spelled(p) != [] && Fits(u, start, p, t[|Spelled(p)|..])
  {
    hide AllWord;
    var n := Run(u, s);
    p := Bare(negate, s[..n]);
    assert Minus(negate) + s == Spelled(p) + s[n..];
  }

  /** The first part of a text. */
  lemma {:induction false} FirstPart(u: Alphabet, start: bool, s: string) returns (p: Part)
    requires s != []
    ensures Spelled(p) <= s && Spelled(p) != [] && Fits(u, start, p, s[|Spelled(p)|..])
  {
    hide AllWord, NearEnds;
    var negate := s[0] == '-' && MayNegate(u, start, s[1..]);
    var t := if negate then s[1..] else s;
    assert s == Minus(negate) + t;
    if t[0] == '"' {
      p := FirstQuoted(u, start, negate, t);
    } else if u.isWord(t[0]) {
      p := FirstBare(u, start, negate, t);
    } else {
      p := Between(s[0]);
    }
  }

  lemma {:induction false} Readable(u: Alphabet, start: bool, s: string) returns (ps: seq<Part>)
    ensures Consists(u, start, s, ps)
    decreases |s|
  {
    hide Fits, Spelled;
    if s == [] {
      ps := [];
    } else {
      var p := FirstPart(u, start, s);
      var t := Spelled(p);
      var more := Readable(u, u.isSpace(t[|t| - 1]), s[|t|..]);
      ps := [p] + more;
      assert ps[1..] == more;
    }
  }

  // ----- groups -----

  function TermsOf(xs: seq<Item>): Group
    requires forall i | 0 <= i < |xs| :: xs[i].One?
  {
    seq(|xs|, i requires 0 <= i < |xs| => xs[i].term)
  }

  lemma {:induction false} GroupsUpTo(xs: seq<Item>, g: Group, k: nat)
    requires k <= |xs| && forall i | 0 <= i < k :: xs[i].One?
    ensures Groups(xs, g) == Groups(xs[k..], g + TermsOf(xs[..k]))
    decreases k
  {
    if k == 0 {
      assert xs[0..] == xs && g + TermsOf(xs[..0]) == g;
    } else {
      GroupsUpTo(xs[1..], g + [xs[0].term], k - 1);
      assert xs[1..][k - 1..] == xs[k..];
      assert g + [xs[0].term] + TermsOf(xs[1..][..k - 1]) == g + TermsOf(xs[..k]);
    }
  }

  lemma {:induction false} PositiveOfClosed(g: Group)
    ensures Positives(Closed(g)) == Positives([g])
  {
    assert [g][1..] == [];
    if g == [] {
      assert !Positive(g);
    }
  }

  /** The groups with a positive term are the blocks with one. */
  lemma {:induction false} BlocksAre(xs: seq<Item>)
    ensures Positives(Groups(xs, [])) == Positives(Blocks(xs))
    decreases |xs|
  {
    hide Positives;
    var k := OrAt(xs);
    var g := TermsOf(xs[..k]);
    GroupsUpTo(xs, [], k);
    assert [] + g == g;
    assert seq(k, i requires 0 <= i < k => xs[i].term) == g;
    PositiveOfClosed(g);
    if k == |xs| {
      assert xs[k..] == [] && Groups([], g) == Closed(g);
      assert [g] + [] == [g];
    } else {
      assert xs[k..][0] == Or && xs[k..][1..] == xs[k + 1..];
      BlocksAre(xs[k + 1..]);
      PositivesConcat(Closed(g), Groups(xs[k + 1..], []));
      PositivesConcat([g], Blocks(xs[k + 1..]));
    }
  }

  /** Every search string has a reading as words, phrases and runes between them, and for
      each reading the parser returns the terms between the OR's, without the groups that
      have no positive term. */
  lemma {:induction false} ParsesExactly(u: Alphabet, s: string)
    requires Lawful(u)
    ensures exists ps :: Consists(u, true, s, ps)
    ensures forall ps | Consists(u, true, s, ps) :: Parsed(u, s) == Positives(Blocks(GivesAll(u, ps)))
  {
    hide Lawful, Consists, Items, Blocks, Positives, Groups, GivesAll;
    var ps := Readable(u, true, s);
    forall ps | Consists(u, true, s, ps)
      ensures Parsed(u, s) == Positives(Blocks(GivesAll(u, ps)))
    {
      ReadingGives(u, true, s, ps);
      BlocksAre(GivesAll(u, ps));
    }
  }
}
