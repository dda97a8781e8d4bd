/**
  The queries a search string can be read into, and a printer for them: printing any such
  query and reading the text gives the query back.
 */
module SearchPrint {
  import opened SearchText
  import opened SearchRewrite

  // ----- what parsing yields -----

  predicate LowerWord(u: Alphabet, w: string) {
    w != [] && AllWord(u, w) && Lower(u, w) == w
  }

  predicate LowerWords(u: Alphabet, ws: seq<string>) {
    forall i | 0 <= i < |ws| :: LowerWord(u, ws[i])
  }

  /** At least one word; N at most MAX_NEAR and only between two words. */
  predicate TermOk(u: Alphabet, t: Term) {
    && t.words != [] && LowerWords(u, t.words)
    && t.near <= MAX_NEAR && (t.near > 0 ==> |t.words| == 2)
  }

  predicate GroupOk(u: Alphabet, g: Group) {
    forall i | 0 <= i < |g| :: TermOk(u, g[i])
  }

  /** Groups have a positive term, so none is empty. */
  predicate QueryOk(u: Alphabet, q: Query) {
    forall i | 0 <= i < |q| :: GroupOk(u, q[i]) && Positive(q[i])
  }

  /** No term is a word prefix: those come from the prefix mode only. */
  predicate NoPrefix(q: Query) {
    forall i, j | 0 <= i < |q| && 0 <= j < |q[i]| :: !q[i][j].prefix
  }

  predicate ItemOk(u: Alphabet, x: Item) {
    x.One? ==> TermOk(u, x.term) && !x.term.prefix
  }

  predicate ItemsOk(u: Alphabet, xs: seq<Item>) {
    forall i | 0 <= i < |xs| :: ItemOk(u, xs[i])
  }

  lemma {:induction false} LowerOfLower(u: Alphabet, s: string)
    requires Lawful(u)
    ensures Lower(u, Lower(u, s)) == Lower(u, s)
    ensures AllWord(u, s) ==> AllWord(u, Lower(u, s))
  {
  }

  lemma {:induction false} FieldsOk(u: Alphabet, s: string)
    requires Lower(u, s) == s
    ensures LowerWords(u, Fields(u, s))
    decreases |s|
  {
    if s != [] {
      var n := if u.isWord(s[0]) then Run(u, s) else 1;
      assert forall i | 0 <= i < |s| :: Lower(u, s)[i] == s[i];
      assert Lower(u, s[n..]) == s[n..] && Lower(u, s[..n]) == s[..n];
      FieldsOk(u, s[n..]);
    }
  }

  lemma {:induction false} SplitWordsOk(u: Alphabet, s: string)
    requires Lawful(u)
    ensures LowerWords(u, SplitWords(u, s))
  {
    LowerOfLower(u, s);
    FieldsOk(u, Lower(u, s));
  }

  lemma {:induction false} ParsedItemsOk(u: Alphabet, start: bool, s: string)
    requires Lawful(u)
    ensures ItemsOk(u, Items(u, start, s))
    decreases |s|, 1
  {
    hide TokenItems, ItemOk;
    if s != [] {
      if Negates(u, start, s) {
        TokenItemsOk(u, true, s[1..]);
      } else {
        TokenItemsOk(u, false, s);
      }
    }
  }

  lemma {:induction false} TokenItemsOk(u: Alphabet, negate: bool, s: string)
    requires Lawful(u) && s != []
    ensures ItemsOk(u, TokenItems(u, negate, s))
    decreases |s|, 0
  {
    hide Lawful, Items, SplitWords, WordItem, PhraseItems, NearValue, ItemOk;
    if s[0] == '"' {
      var k := QuoteEnd(s[1..]);
      var after := if 1 + k < |s| then s[2 + k..] else [];
      var m := NearLength(after);
      var last := if m > 0 then after[m - 1] else '"';
      ParsedItemsOk(u, u.isSpace(last), after[m..]);
      PhraseOk(u, s[1..1 + k], negate, NearValue(after));
    } else if u.isWord(s[0]) {
      var n := Run(u, s);
      ParsedItemsOk(u, u.isSpace(s[n - 1]), s[n..]);
      WordOk(u, s[..n], negate);
    } else {
      ParsedItemsOk(u, u.isSpace(s[0]), s[1..]);
    }
  }

  lemma {:induction false} PhraseOk(u: Alphabet, body: string, negate: bool, near: nat)
    requires Lawful(u)
    ensures ItemsOk(u, PhraseItems(SplitWords(u, body), negate, near))
  {
    SplitWordsOk(u, body);
  }

  lemma {:induction false} WordOk(u: Alphabet, w: string, negate: bool)
    requires Lawful(u) && w != [] && AllWord(u, w)
    ensures ItemOk(u, WordItem(Lower(u, w), negate))
  {
    LowerOfLower(u, w);
  }

  lemma {:induction false} GroupsOk(u: Alphabet, xs: seq<Item>, g: Group)
    requires ItemsOk(u, xs) && GroupOk(u, g) && (forall j | 0 <= j < |g| :: !g[j].prefix)
    ensures forall i | 0 <= i < |Groups(xs, g)| :: GroupOk(u, Groups(xs, g)[i])
    ensures NoPrefix(Groups(xs, g))
    decreases |xs|
  {
    hide TermOk;
    if xs != [] {
      assert ItemOk(u, xs[0]);
      assert ItemsOk(u, xs[1..]);
      match xs[0] {
        case Or => GroupsOk(u, xs[1..], []);
        case One(t) => GroupsOk(u, xs[1..], g + [t]);
      }
    }
  }

  lemma {:induction false} PositivesOk(u: Alphabet, q: Query)
    requires (forall i | 0 <= i < |q| :: GroupOk(u, q[i])) && NoPrefix(q)
    ensures QueryOk(u, Positives(q)) && NoPrefix(Positives(q))
  {
    hide GroupOk, Positive;
    if q != [] {
      assert forall i | 0 <= i < |q[1..]| :: q[1..][i] == q[i + 1];
      PositivesOk(u, q[1..]);
    }
  }

  /** Every search string is read into non-empty groups with a positive term, of
      lower-case non-empty words of word runes, N being at most 10 and only on two-word
      terms. */
  lemma {:induction false} ParsedOk(u: Alphabet, s: string)
    requires Lawful(u)
    ensures QueryOk(u, Parsed(u, s)) && NoPrefix(Parsed(u, s))
  {
    hide Items, Groups, Positives, QueryOk, GroupOk, ItemOk;
    ParsedItemsOk(u, true, s);
    EmptyGroupOk(u);
    GroupsOk(u, Items(u, true, s), []);
    PositivesOk(u, Groups(Items(u, true, s), []));
  }

  lemma {:induction false} EmptyGroupOk(u: Alphabet)
    ensures GroupOk(u, [])
  {
  }

  // ----- the other modes -----

  datatype Mode = Websearch | AllTerms | AnyTerm | Prefix | Phrase

  function WordTerm(w: string, prefix: bool): Term {
    Term([w], prefix, false, 0)
  }

  function WordTerms(ws: seq<string>, prefix: bool): Group {
    seq(|ws|, i requires 0 <= i < |ws| => WordTerm(ws[i], prefix))
  }

  function ParsedIn(u: Alphabet, mode: Mode, s: string): Query {
    var ws := SplitWords(u, s);
    match mode
    case Websearch => Parsed(u, s)
    case AllTerms => Positives([WordTerms(ws, false)])
    case Prefix => Positives([WordTerms(ws, true)])
    case AnyTerm => seq(|ws|, i requires 0 <= i < |ws| => [WordTerm(ws[i], false)])
    case Phrase => if ws == [] then [] else [[Term(ws, false, false, 0)]]
  }

  /** The same holds in every mode. */
  lemma {:induction false} ParsedInOk(u: Alphabet, mode: Mode, s: string)
    requires Lawful(u)
    ensures QueryOk(u, ParsedIn(u, mode, s))
  {
    hide Lawful, Parsed, SplitWords, LowerWord;
    ParsedOk(u, s);
    SplitWordsOk(u, s);
    var ws := SplitWords(u, s);
    match mode {
      case Websearch =>
      case AllTerms => WordTermsOk(u, ws, false);
      case Prefix => WordTermsOk(u, ws, true);
      case AnyTerm =>
        forall i | 0 <= i < |ws| ensures GroupOk(u, [WordTerm(ws[i], false)]) && Positive([WordTerm(ws[i], false)]) {
          assert ![WordTerm(ws[i], false)][0].negate;
        }
      case Phrase =>
        if ws != [] {
          assert ![Term(ws, false, false, 0)][0].negate;
        }
    }
  }

  lemma {:induction false} WordTermsOk(u: Alphabet, ws: seq<string>, prefix: bool)
    requires LowerWords(u, ws)
    ensures QueryOk(u, Positives([WordTerms(ws, prefix)]))
  {
    hide LowerWord;
    assert [WordTerms(ws, prefix)][1..] == [];
    assert Positives([]) == [];
  }

  // ----- printing -----

  function Joined(ws: seq<string>): string {
    if ws == [] then []
    else if |ws| == 1 then ws[0]
    else ws[0] + [' '] + Joined(ws[1..])
  }

  function Decimal(n: nat): string
    requires n <= MAX_NEAR
  {
    if n == 10 then "10" else [('0' as int + n) as char]
  }

  function NearText(n: nat): string
    requires n <= MAX_NEAR
  {
    if n > 0 then ['~'] + Decimal(n) else []
  }

  /** A term as a quoted phrase. */
  function TermText(t: Term): string
    requires t.near <= MAX_NEAR
  {
    (if t.negate then ['-'] else []) + (['"'] + Joined(t.words) + ['"'] + NearText(t.near))
  }

  function GroupText(g: Group): string
    requires forall i | 0 <= i < |g| :: g[i].near <= MAX_NEAR
  {
    if g == [] then []
    else if |g| == 1 then TermText(g[0])
    else TermText(g[0]) + [' '] + GroupText(g[1..])
  }

  function QueryText(q: Query): string
    requires forall i, j | 0 <= i < |q| && 0 <= j < |q[i]| :: q[i][j].near <= MAX_NEAR
  {
    if q == [] then []
    else if |q| == 1 then GroupText(q[0])
    else GroupText(q[0]) + " OR " + QueryText(q[1..])
  }

  // ----- reading it back -----

  predicate Ends(k: string) {
    k == [] || k[0] == ' '
  }

  lemma {:induction false} JoinedReads(u: Alphabet, ws: seq<string>)
    requires Lawful(u) && LowerWords(u, ws)
    ensures SplitWords(u, Joined(ws)) == ws
    ensures '"' !in Joined(ws)
  {
    hide SplitWords, Lower;
    if ws == [] {
      SplitNothing(u);
    } else {
      var w, rest := ws[0], Joined(ws[1..]);
      assert LowerWord(u, w);
      assert '"' !in w by { assert forall i | 0 <= i < |w| :: w[i] != '"'; }
      JoinedReads(u, ws[1..]);
      if |ws| == 1 {
        assert w + [] == w;
        SplitWord(u, w, []);
        SplitNothing(u);
      } else {
        assert Joined(ws) == w + ([' '] + rest);
        assert !u.isWord(' ');
        SplitWord(u, w, [' '] + rest);
        SplitOther(u, ' ', rest);
      }
    }
  }

  lemma {:induction false} DecimalReads(n: nat, k: string)
    requires 0 < n <= MAX_NEAR && Ends(k)
    ensures NearLength(NearText(n) + k) == |NearText(n)|
    ensures NearValue(NearText(n) + k) == n
  {
    var d := Decimal(n);
    var s := NearText(n) + k;
    assert s[1..] == d + k;
    assert forall i | 0 <= i < |d| :: Digit(d[i]);
    assert k != [] ==> !Digit(k[0]);
    DigitsIs(d + k, 3, |d|);
    assert (d + k)[..|d|] == d;
    assert d[..|d| - 1] == if n == 10 then "1" else [];
    if n == 10 {
      assert "1"[..0] == [];
      assert Number([]) == 0;
      assert Number("1") == 1;
    } else {
      assert Number([]) == 0;
    }
  }

  lemma {:induction false} NoNearText(k: string)
    requires Ends(k)
    ensures NearLength(NearText(0) + k) == 0 && NearValue(NearText(0) + k) == 0 && NearText(0) + k == k
  {
  }

  lemma {:induction false} TermReads(u: Alphabet, t: Term, k: string)
    requires Lawful(u) && TermOk(u, t) && !t.prefix && Ends(k)
    ensures Items(u, true, TermText(t) + k) == [One(t)] + Items(u, false, k)
  {
    hide Lawful, SplitWords, TokenItems, NearValue, LowerWords, Joined;
    var body, after := Joined(t.words), NearText(t.near) + k;
    JoinedReads(u, t.words);
    var quoted := ['"'] + body + ['"'] + after;
    var s := TermText(t) + k;
    assert s == (if t.negate then ['-'] else []) + quoted;
    QuoteToken(u, t.negate, body, after);
    if t.near > 0 {
      DecimalReads(t.near, k);
      assert after[|NearText(t.near)|..] == k;
    } else {
      NoNearText(k);
      assert after[0..] == k;
    }
    assert PhraseItems(t.words, t.negate, NearValue(after)) == [One(t)];
    QuoteStarts(u, t.negate, quoted);
  }

  /** At the start of a token a quote, after a minus or not, starts a phrase. */
  lemma {:induction false} QuoteStarts(u: Alphabet, negate: bool, quoted: string)
    requires Lawful(u) && quoted != [] && quoted[0] == '"'
    ensures Items(u, true, (if negate then ['-'] else []) + quoted) == TokenItems(u, negate, quoted)
  {
    hide TokenItems;
    var s := (if negate then ['-'] else []) + quoted;
    if negate {
      assert s[0] == '-' && s[1] == '"' && s[1..] == quoted;
    } else {
      assert s == quoted;
    }
  }

  lemma {:induction false} SpaceReads(u: Alphabet, start: bool, k: string)
    requires Lawful(u)
    ensures Items(u, start, [' '] + k) == Items(u, true, k)
  {
    hide TokenItems;
    assert !u.isWord(' ');
    assert ([' '] + k)[1..] == k;
    SkippedRune(u, false, [' '] + k);
  }

  lemma {:induction false} OrReads(u: Alphabet, k: string)
    requires Lawful(u)
    ensures Items(u, false, " OR " + k) == [Or] + Items(u, true, k)
  {
    hide Items;
    var rest := [' '] + k;
    assert " OR " + k == [' '] + ("OR" + rest);
    assert !u.isWord(' ');
    SpaceReads(u, false, "OR" + rest);
    SpaceReads(u, false, k);
    OrWord(u, rest);
  }

  lemma {:induction false} OrWord(u: Alphabet, rest: string)
    requires Lawful(u) && NoWordAhead(u, rest)
    ensures Items(u, true, "OR" + rest) == [Or] + Items(u, false, rest)
  {
    hide TokenItems;
    assert AllWord(u, "OR");
    WordToken(u, false, "OR", rest);
    assert Lower(u, "OR") == "or";
    assert Items(u, true, "OR" + rest) == TokenItems(u, false, "OR" + rest);
  }

  function Ones(g: Group): seq<Item> {
    seq(|g|, i requires 0 <= i < |g| => One(g[i]))
  }

  predicate Printable(u: Alphabet, g: Group) {
    GroupOk(u, g) && forall i | 0 <= i < |g| :: !g[i].prefix
  }

  lemma {:induction false} GroupReads(u: Alphabet, g: Group, k: string)
    requires Lawful(u) && g != [] && Printable(u, g) && Ends(k)
    ensures Items(u, true, GroupText(g) + k) == Ones(g) + Items(u, false, k)
    decreases |g|
  {
    hide Lawful, Items, TermText, LowerWords;
    assert TermOk(u, g[0]);
    if |g| == 1 {
      TermReads(u, g[0], k);
      assert Ones(g) == [One(g[0])];
    } else {
      var rest := GroupText(g[1..]) + k;
      assert forall i | 0 <= i < |g[1..]| :: g[1..][i] == g[i + 1];
      assert GroupText(g) + k == TermText(g[0]) + ([' '] + rest);
      TermReads(u, g[0], [' '] + rest);
      SpaceReads(u, false, rest);
      GroupReads(u, g[1..], k);
      assert Ones(g) == [One(g[0])] + Ones(g[1..]);
    }
  }

  /** The items of a query: its terms, an OR between two groups. */
  function QueryItems(q: Query): seq<Item> {
    if q == [] then []
    else if |q| == 1 then Ones(q[0])
    else Ones(q[0]) + [Or] + QueryItems(q[1..])
  }

  predicate AllPrintable(u: Alphabet, q: Query) {
    forall i | 0 <= i < |q| :: q[i] != [] && Printable(u, q[i])
  }

  lemma {:induction false} NearBounded(u: Alphabet, q: Query)
    requires AllPrintable(u, q)
    ensures forall i, j | 0 <= i < |q| && 0 <= j < |q[i]| :: q[i][j].near <= MAX_NEAR
  {
    forall i, j | 0 <= i < |q| && 0 <= j < |q[i]| ensures q[i][j].near <= MAX_NEAR {
      assert TermOk(u, q[i][j]);
    }
  }

  lemma {:induction false} QueryReads(u: Alphabet, q: Query)
    requires Lawful(u) && AllPrintable(u, q)
    requires forall i, j | 0 <= i < |q| && 0 <= j < |q[i]| :: q[i][j].near <= MAX_NEAR
    ensures Items(u, true, QueryText(q)) == QueryItems(q)
    decreases |q|
  {
    hide Lawful, Items, GroupText, Printable, Ones;
    if q == [] {
      ItemsOfNothing(u, true);
    } else if |q| == 1 {
      ItemsOfNothing(u, false);
      GroupReads(u, q[0], []);
      assert GroupText(q[0]) + [] == GroupText(q[0]);
    } else {
      var rest := QueryText(q[1..]);
      assert forall i | 0 <= i < |q[1..]| :: q[1..][i] == q[i + 1];
      QueryReads(u, q[1..]);
      assert QueryText(q) == GroupText(q[0]) + (" OR " + rest);
      GroupReads(u, q[0], " OR " + rest);
      OrReads(u, rest);
      assert Ones(q[0]) + ([Or] + QueryItems(q[1..])) == QueryItems(q);
    }
  }

  lemma {:induction false} OnesGroup(g: Group, h: Group, rest: seq<Item>)
    ensures Groups(Ones(g) + rest, h) == Groups(rest, h + g)
    decreases |g|
  {
    if g == [] {
      assert Ones(g) + rest == rest && h + g == h;
    } else {
      var xs := Ones(g) + rest;
      assert xs[0] == One(g[0]) && xs[1..] == Ones(g[1..]) + rest;
      OnesGroup(g[1..], h + [g[0]], rest);
      assert h + [g[0]] + g[1..] == h + g;
    }
  }

  lemma {:induction false} ItemsGroup(q: Query)
    requires forall i | 0 <= i < |q| :: q[i] != []
    ensures Groups(QueryItems(q), []) == q
  {
    hide Ones;
    if q != [] {
      assert [] + q[0] == q[0];
      if |q| == 1 {
        OnesGroup(q[0], [], []);
        assert Ones(q[0]) + [] == Ones(q[0]);
        assert Groups([], q[0]) == [q[0]];
      } else {
        var more := [Or] + QueryItems(q[1..]);
        assert more[1..] == QueryItems(q[1..]);
        assert QueryItems(q) == Ones(q[0]) + more;
        OnesGroup(q[0], [], more);
        assert forall i | 0 <= i < |q[1..]| :: q[1..][i] == q[i + 1];
        ItemsGroup(q[1..]);
        assert Groups(more, q[0]) == [q[0]] + Groups(more[1..], []);
      }
    }
  }

  lemma {:induction false} PositivesAll(q: Query)
    requires forall i | 0 <= i < |q| :: Positive(q[i])
    ensures Positives(q) == q
  {
    hide Positive;
    if q != [] {
      assert forall i | 0 <= i < |q[1..]| :: q[1..][i] == q[i + 1];
      PositivesAll(q[1..]);
    }
  }

  /** Round trip: every query of that shape, printed and read, comes back. */
  lemma {:induction false} PrintedReadsBack(u: Alphabet, q: Query)
    requires Lawful(u) && QueryOk(u, q) && NoPrefix(q)
    ensures forall i, j | 0 <= i < |q| && 0 <= j < |q[i]| :: q[i][j].near <= MAX_NEAR
    ensures Parsed(u, QueryText(q)) == q
  {
    hide Items, Groups, Positives, TermOk, QueryText;
    forall i | 0 <= i < |q| ensures q[i] != [] && Printable(u, q[i]) {
      assert GroupOk(u, q[i]) && Positive(q[i]);
    }
    NearBounded(u, q);
    QueryReads(u, q);
    ItemsGroup(q);
    PositivesAll(q);
  }

  /** So printing the parse of a string is a canonical form of the string. */
  lemma {:induction false} Canonical(u: Alphabet, s: string)
    requires Lawful(u)
    ensures forall i, j | 0 <= i < |Parsed(u, s)| && 0 <= j < |Parsed(u, s)[i]| :: Parsed(u, s)[i][j].near <= MAX_NEAR
    ensures Parsed(u, QueryText(Parsed(u, s))) == Parsed(u, s)
  {
    hide Lawful, Parsed, QueryText, QueryOk, NoPrefix;
    ParsedOk(u, s);
    PrintedReadsBack(u, Parsed(u, s));
  }
}
