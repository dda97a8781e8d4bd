/**
  The search string of a full-text query: words, "phrases", "two words"~N, -exclusions
  and OR, read into a disjunction of groups. Text is a sequence of runes; what a word rune,
  a space, the lower case and the unaccented form of a rune are is a parameter.
 */
module SearchText {

  datatype Alphabet = Alphabet(isWord: char -> bool, isSpace: char -> bool,
                               lower: char -> char, fold: char -> char)

  predicate Digit(c: char) {
    '0' <= c <= '9'
  }

  /** What the Unicode tables guarantee: lower-casing is idempotent and keeps word runes;
      a word rune is not a space; ASCII characters are what they look like. */
  ghost predicate Lawful(u: Alphabet) {
    && (forall c :: u.isWord(u.lower(c)) == u.isWord(c))
    && (forall c :: u.lower(u.lower(c)) == u.lower(c))
    && (forall c :: u.isWord(c) ==> !u.isSpace(c))
    && (forall c :: Digit(c) ==> u.isWord(c) && u.lower(c) == c && u.fold(c) == c)
    && u.isSpace(' ') && !u.isSpace('"') && !u.isSpace('~')
    && !u.isWord('"') && !u.isWord('-') && !u.isWord('~')
    && u.isWord('O') && u.isWord('R') && u.lower('O') == 'o' && u.lower('R') == 'r'
  }

  function Lower(u: Alphabet, s: string): string {
    seq(|s|, i requires 0 <= i < |s| => u.lower(s[i]))
  }

  function Fold(u: Alphabet, s: string): string {
    seq(|s|, i requires 0 <= i < |s| => u.fold(s[i]))
  }

  predicate AllWord(u: Alphabet, s: string) {
    forall i | 0 <= i < |s| :: u.isWord(s[i])
  }

  /** Length of the run of word runes s starts with. */
  function Run(u: Alphabet, s: string): (n: nat)
    ensures n <= |s| && AllWord(u, s[..n])
    ensures n < |s| ==> !u.isWord(s[n])
    ensures s != [] && u.isWord(s[0]) ==> n > 0
  {
    if s == [] || !u.isWord(s[0]) then 0
    else
      var n := Run(u, s[1..]);
      assert s[..n + 1] == [s[0]] + s[1..][..n];
      n + 1
  }

  /** The runs of word runes of s. */
  function Fields(u: Alphabet, s: string): seq<string> {
    if s == [] then []
    else if !u.isWord(s[0]) then Fields(u, s[1..])
    else
      var n := Run(u, s);
      [s[..n]] + Fields(u, s[n..])
  }

  function SplitWords(u: Alphabet, s: string): seq<string> {
    Fields(u, Lower(u, s))
  }

  // ----- queries -----

  datatype Term = Term(words: seq<string>, prefix: bool, negate: bool, near: nat)

  type Group = seq<Term>
  type Query = seq<Group>

  const MAX_NEAR := 10

  predicate Positive(g: Group) {
    exists i | 0 <= i < |g| :: !g[i].negate
  }

  /** The groups that have a positive term. */
  function Positives(q: Query): Query {
    if q == [] then []
    else (if Positive(q[0]) then [q[0]] else []) + Positives(q[1..])
  }

  lemma {:induction false} PositivesConcat(a: Query, b: Query)
    ensures Positives(a + b) == Positives(a) + Positives(b)
  {
    if a == [] {
      assert a + b == b;
    } else {
      assert (a + b)[1..] == a[1..] + b;
      PositivesConcat(a[1..], b);
    }
  }

  method HasPositive(g: Group) returns (b: bool)
    ensures b == Positive(g)
  {
    for i := 0 to |g|
      invariant forall j | 0 <= j < i :: g[j].negate
    {
      if !g[i].negate {
        return true;
      }
    }
    return false;
  }

  /** Compacts the groups to keep in place, in the storage of q itself. */
  method KeepPositive(q: array<Group>) returns (n: nat)
    modifies q
    ensures n <= q.Length && q[..n] == Positives(old(q[..]))
  {
    n := 0;
    ghost var before := q[..];
    for i := 0 to q.Length
      invariant n <= i
      invariant q[i..] == before[i..]
      invariant q[..n] == Positives(before[..i])
    {
      assert q[i] == q[i..][0] == before[i];
      assert before[..i + 1] == before[..i] + [before[i]];
      PositivesConcat(before[..i], [before[i]]);
      assert [before[i]][1..] == [];
      ghost var kept := q[..n];
      var keep := HasPositive(q[i]);
      if keep {
        q[n] := q[i];
        n := n + 1;
        assert q[..n] == kept + [before[i]];
      }
      assert q[i + 1..] == before[i + 1..];
    }
    assert before[..q.Length] == before;
  }

  // ----- reading a search string -----

  /** What one token of a search string contributes. */
  datatype Item = Or | One(term: Term)

  function QuoteEnd(s: string): (k: nat)
    ensures k <= |s| && '"' !in s[..k]
    ensures k < |s| ==> s[k] == '"'
  {
    if s == [] || s[0] == '"' then 0
    else
      var k := QuoteEnd(s[1..]);
      assert s[..k + 1] == [s[0]] + s[1..][..k];
      k + 1
  }

  /** Number of digits s starts with, at most most. */
  function Digits(s: string, most: nat): (k: nat)
    ensures k <= |s| && k <= most
    ensures forall i | 0 <= i < k :: Digit(s[i])
    ensures k < most && k < |s| ==> !Digit(s[k])
  {
    if most == 0 || s == [] || !Digit(s[0]) then 0 else 1 + Digits(s[1..], most - 1)
  }

  function Number(s: string): nat
    requires forall i | 0 <= i < |s| :: Digit(s[i])
  {
    if s == [] then 0
    else
      assert Digit(s[|s| - 1]);
      Number(s[..|s| - 1]) * 10 + (s[|s| - 1] as int - '0' as int)
  }

  /** The ~N that may follow a closing quote: how many runes it takes, and N. */
  function NearLength(s: string): (k: nat)
    ensures k <= |s|
    ensures k > 0 <==> s != [] && s[0] == '~'
  {
    if s != [] && s[0] == '~' then 1 + Digits(s[1..], 3) else 0
  }

  function NearValue(s: string): nat {
    if s != [] && s[0] == '~' then Number(s[1..][..Digits(s[1..], 3)]) else 0
  }

  function Min(a: nat, b: nat): nat {
    if a < b then a else b
  }

  function WordItem(w: string, negate: bool): Item {
    if w == "or" && !negate then Or else One(Term([w], false, negate, 0))
  }

  function PhraseItems(words: seq<string>, negate: bool, near: nat): seq<Item> {
    if words == [] then []
    else [One(Term(words, false, negate, if |words| == 2 && near > 0 then Min(near, MAX_NEAR) else 0))]
  }

  /** A '-' that negates: at the start of a token, right before a word or a quote. */
  predicate Negates(u: Alphabet, start: bool, s: string) {
    start && |s| > 1 && s[0] == '-' && (s[1] == '"' || u.isWord(s[1]))
  }

  /** The items of s; start when s follows a space or starts the string. */
  function Items(u: Alphabet, start: bool, s: string): seq<Item>
    decreases |s|, 1
  {
    if s == [] then []
    else if Negates(u, start, s) then TokenItems(u, true, s[1..])
    else TokenItems(u, false, s)
  }

  function TokenItems(u: Alphabet, negate: bool, s: string): seq<Item>
    requires s != []
    decreases |s|, 0
  {
    if s[0] == '"' then
      var k := QuoteEnd(s[1..]);
      var after := if 1 + k < |s| then s[2 + k..] else [];
      var m := NearLength(after);
      var last := if m > 0 then after[m - 1] else '"';
      PhraseItems(SplitWords(u, s[1..1 + k]), negate, NearValue(after)) + Items(u, u.isSpace(last), after[m..])
    else if u.isWord(s[0]) then
      var n := Run(u, s);
      [WordItem(Lower(u, s[..n]), negate)] + Items(u, u.isSpace(s[n - 1]), s[n..])
    else Items(u, u.isSpace(s[0]), s[1..])
  }

  function Closed(g: Group): Query {
    if g == [] then [] else [g]
  }

  /** The groups of a list of items, g being the group read so far. */
  function Groups(items: seq<Item>, g: Group): Query {
    if items == [] then Closed(g)
    else match items[0]
      case Or => Closed(g) + Groups(items[1..], [])
      case One(t) => Groups(items[1..], g + [t])
  }

  function Parsed(u: Alphabet, s: string): Query {
    Positives(Groups(Items(u, true, s), []))
  }

  // ----- the loop of the source -----

  lemma {:induction false} RunIs(u: Alphabet, s: string, n: nat)
    requires n <= |s| && AllWord(u, s[..n]) && (n < |s| ==> !u.isWord(s[n]))
    ensures Run(u, s) == n
  {
    if n > 0 {
      assert u.isWord(s[..n][0]);
      assert s[1..][..n - 1] == s[..n][1..];
      RunIs(u, s[1..], n - 1);
    }
  }

  method ScanWord(u: Alphabet, rs: string, i: nat) returns (end: nat)
    requires i <= |rs|
    ensures i <= end <= |rs| && end == i + Run(u, rs[i..])
  {
    end := i;
    while end < |rs| && u.isWord(rs[end])
      invariant i <= end <= |rs| && AllWord(u, rs[i..end])
    {
      assert rs[i..end + 1] == rs[i..end] + [rs[end]];
      end := end + 1;
    }
    assert rs[i..][..end - i] == rs[i..end];
    RunIs(u, rs[i..], end - i);
  }

  lemma {:induction false} QuoteEndIs(s: string, k: nat)
    requires k <= |s| && '"' !in s[..k] && (k < |s| ==> s[k] == '"')
    ensures QuoteEnd(s) == k
  {
    if k > 0 {
      assert s[..k][0] == s[0];
      assert s[1..][..k - 1] == s[..k][1..];
      QuoteEndIs(s[1..], k - 1);
    }
  }

  method ScanQuote(rs: string, i: nat) returns (end: nat)
    requires i <= |rs|
    ensures i <= end <= |rs| && end == i + QuoteEnd(rs[i..])
  {
    end := i;
    while end < |rs| && rs[end] != '"'
      invariant i <= end <= |rs| && '"' !in rs[i..end]
    {
      assert rs[i..end + 1] == rs[i..end] + [rs[end]];
      end := end + 1;
    }
    assert rs[i..][..end - i] == rs[i..end];
    QuoteEndIs(rs[i..], end - i);
  }

  lemma {:induction false} DigitsIs(s: string, most: nat, k: nat)
    requires k <= |s| && k <= most && (forall i | 0 <= i < k :: Digit(s[i]))
    requires k == most || k == |s| || !Digit(s[k])
    ensures Digits(s, most) == k
  {
    if k > 0 {
      DigitsIs(s[1..], most - 1, k - 1);
    }
  }

  method ScanNear(rs: string, i: nat) returns (j: nat, near: nat)
    requires i <= |rs|
    ensures i <= j <= |rs| && j == i + NearLength(rs[i..]) && near == NearValue(rs[i..])
  {
    near, j := 0, i;
    if i < |rs| && rs[i] == '~' {
      j := i + 1;
      ghost var s := rs[i..][1..];
      while j < |rs| && '0' <= rs[j] <= '9' && j - i <= 3
        invariant i + 1 <= j <= |rs| && j - i <= 4
        invariant forall x | 0 <= x < j - i - 1 :: Digit(s[x])
        invariant near == Number(s[..j - i - 1])
      {
        assert s[j - i - 1] == rs[j];
        assert s[..j - i][..j - i - 1] == s[..j - i - 1];
        near := near * 10 + (rs[j] as int - '0' as int);
        j := j + 1;
      }
      assert j < |rs| ==> s[j - i - 1] == rs[j];
      DigitsIs(s, 3, j - i - 1);
    }
  }

  /** A token may start at i. */
  predicate Start(u: Alphabet, rs: string, i: nat)
    requires i <= |rs|
  {
    i == 0 || u.isSpace(rs[i - 1])
  }

  /** The items from position i on; reading a phrase that is never closed ends past rs. */
  function ItemsAt(u: Alphabet, rs: string, i: nat): seq<Item> {
    if i <= |rs| then Items(u, Start(u, rs, i), rs[i..]) else []
  }

  method ParseQuote(u: Alphabet, rs: string, i: nat, negate: bool) returns (j: nat, items: seq<Item>)
    requires i < |rs| && rs[i] == '"'
    ensures i < j && |items| <= 1
    ensures TokenItems(u, negate, rs[i..]) == items + ItemsAt(u, rs, j)
  {
    hide SplitWords, Items, TokenItems, ItemsAt, NearLength, NearValue, QuoteEnd;
    var end := ScanQuote(rs, i + 1);
    var words := SplitWords(u, rs[i + 1..end]);
    j := end + 1;
    var near := 0;
    if j <= |rs| {
      j, near := ScanNear(rs, end + 1);
      ClosedPhrase(u, negate, rs, i, end);
    } else {
      assert rs[i + 1..end] == rs[i + 1..];
      OpenPhrase(u, negate, rs, i);
    }
    items := if words == [] then []
             else [One(Term(words, false, negate, if |words| == 2 && near > 0 then Min(near, MAX_NEAR) else 0))];
  }

  lemma {:induction false} ClosedPhrase(u: Alphabet, negate: bool, rs: string, i: nat, end: nat)
    requires i < end < |rs| && rs[i] == '"' && end == i + 1 + QuoteEnd(rs[i + 1..])
    ensures TokenItems(u, negate, rs[i..])
         == PhraseItems(SplitWords(u, rs[i + 1..end]), negate, NearValue(rs[end + 1..]))
           + ItemsAt(u, rs, end + 1 + NearLength(rs[end + 1..]))
  {
    hide SplitWords, Items, QuoteEnd, NearValue;
    var t, near := rs[i..], rs[end + 1..];
    var m := NearLength(near);
    assert t[1..] == rs[i + 1..] && t[1..end - i] == rs[i + 1..end] && t[end + 1 - i..] == near;
    assert near[m..] == rs[end + 1 + m..];
    assert (if m > 0 then near[m - 1] else '"') == rs[end + m];
  }

  lemma {:induction false} OpenPhrase(u: Alphabet, negate: bool, rs: string, i: nat)
    requires i < |rs| && rs[i] == '"' && |rs| == i + 1 + QuoteEnd(rs[i + 1..])
    ensures TokenItems(u, negate, rs[i..])
            == PhraseItems(SplitWords(u, rs[i + 1..]), negate, 0) + ItemsAt(u, rs, |rs| + 1)
  {
    hide SplitWords, Items, QuoteEnd;
    var t := rs[i..];
    assert t[1..] == rs[i + 1..] && t[1..|t|] == rs[i + 1..];
    ItemsOfNothing(u, u.isSpace('"'));
  }

  lemma {:induction false} ItemsOfNothing(u: Alphabet, start: bool)
    ensures Items(u, start, []) == []
  {
  }

  method ParseWord(u: Alphabet, rs: string, i: nat, negate: bool) returns (j: nat, item: Item)
    requires i < |rs| && u.isWord(rs[i]) && rs[i] != '"'
    ensures i < j <= |rs|
    ensures TokenItems(u, negate, rs[i..]) == [item] + ItemsAt(u, rs, j)
  {
    hide Items;
    ghost var t := rs[i..];
    j := ScanWord(u, rs, i);
    assert t[..j - i] == rs[i..j] && t[j - i..] == rs[j..];
    item := WordItem(Lower(u, rs[i..j]), negate);
  }

  /** The groups that reading items closes and the group it leaves open. */
  method Push(item: Item, g0: Group, q0: Query) returns (g: Group, q: Query)
    ensures forall rest: seq<Item> {:trigger [item] + rest} :: q0 + Groups([item] + rest, g0) == q + Groups(rest, g)
  {
    g, q := g0, q0;
    if item == Or {
      if g != [] {
        q := q + [g];
        g := [];
      }
    } else {
      g := g + [item.term];
    }
    forall rest: seq<Item> ensures q0 + Groups([item] + rest, g0) == q + Groups(rest, g) {
      assert ([item] + rest)[1..] == rest;
      assert item == Or ==> q0 + (Closed(g0) + Groups(rest, [])) == q0 + Closed(g0) + Groups(rest, []);
    }
  }

  /** Reads rs rune by rune into groups. */
  method ParseWebsearch(u: Alphabet, rs: string) returns (r: Query)
    ensures r == Parsed(u, rs)
  {
    hide Items, Positives;
    var q: Query := [];
    var g: Group := [];
    var i := 0;
    assert rs[0..] == rs;
    while i < |rs|
      invariant q + Groups(ItemsAt(u, rs, i), g) == Groups(Items(u, true, rs), [])
    {
      ghost var before := ItemsAt(u, rs, i);
      var j, items := ParseToken(u, rs, i);
      ghost var rest := ItemsAt(u, rs, j);
      if items != [] {
        assert items == [items[0]];
        g, q := Push(items[0], g, q);
        assert before == [items[0]] + rest;
      } else {
        assert before == rest;
      }
      i := j;
    }
    ItemsOfNothing(u, i == |rs| && Start(u, rs, i));
    assert ItemsAt(u, rs, i) == [] by {
      if i == |rs| {
        assert rs[i..] == [];
      }
    }
    assert Groups([], g) == Closed(g);
    if g != [] {
      q := q + [g];
    }
    assert q == Groups(Items(u, true, rs), []);
    var a := new Group[|q|](x requires 0 <= x < |q| => q[x]);
    assert a[..] == q;
    var n := KeepPositive(a);
    r := a[..n];
  }

  method ParseToken(u: Alphabet, rs: string, i0: nat) returns (j: nat, items: seq<Item>)
    requires i0 < |rs|
    ensures j > i0 && |items| <= 1
    ensures ItemsAt(u, rs, i0) == items + ItemsAt(u, rs, j)
  {
    hide TokenItems;
    var i, r, negate := i0, rs[i0], false;
    if r == '-' && (i == 0 || u.isSpace(rs[i - 1])) && i + 1 < |rs| && (rs[i + 1] == '"' || u.isWord(rs[i + 1])) {
      negate := true;
      i := i + 1;
      r := rs[i];
      assert rs[i0..][1..] == rs[i..];
    }
    assert ItemsAt(u, rs, i0) == TokenItems(u, negate, rs[i..]);
    if r == '"' {
      j, items := ParseQuote(u, rs, i, negate);
    } else if u.isWord(r) {
      var item: Item;
      j, item := ParseWord(u, rs, i, negate);
      items := [item];
    } else {
      SkippedRune(u, negate, rs[i..]);
      assert rs[i..][1..] == rs[i + 1..];
      j, items := i + 1, [];
    }
  }

  lemma {:induction false} SkippedRune(u: Alphabet, negate: bool, s: string)
    requires s != [] && s[0] != '"' && !u.isWord(s[0])
    ensures TokenItems(u, negate, s) == Items(u, u.isSpace(s[0]), s[1..])
  {
  }
}
