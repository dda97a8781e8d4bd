/**
  What spelling correction does not keep as typed: words that are excluded, and the ~N of a
  phrase. Corrections come from positive words of the search, and are then made everywhere.
 */
module SearchLimits {
  import opened SearchText
  import opened SearchRewrite
  import opened SearchScans
  import opened SearchCommutes

  /** k is the folded form of a word that the search asks for. */
  predicate PositiveWord(u: Alphabet, q: Query, k: string) {
    exists g, t, w | g in q && t in g && w in t.words :: !t.negate && Fold(u, w) == k
  }

  /** Only words the search asks for are corrected. */
  predicate CorrectsWordsOf(u: Alphabet, fix: Fixes, q: Query) {
    forall k | k in fix :: PositiveWord(u, q, k)
  }

  // ----- excluded words -----

  /** The negated terms of a group, in order. */
  function NegatedIn(g: Group): seq<Term> {
    if g == [] then [] else (if g[0].negate then [g[0]] else []) + NegatedIn(g[1..])
  }

  /** The negated terms of a query. */
  function Negated(q: Query): seq<Term> {
    if q == [] then [] else NegatedIn(q[0]) + Negated(q[1..])
  }

  lemma {:induction false} FixedNegatedIn(u: Alphabet, fix: Fixes, g: Group)
    ensures NegatedIn(FixedGroup(u, fix, g)) == FixedGroup(u, fix, NegatedIn(g))
  {
    hide FixedWords;
    if g != [] {
      var r := FixedGroup(u, fix, g);
      assert r[1..] == FixedGroup(u, fix, g[1..]);
      FixedNegatedIn(u, fix, g[1..]);
    }
  }

  lemma {:induction false} FixedConcat(u: Alphabet, fix: Fixes, a: Group, b: Group)
    ensures FixedGroup(u, fix, a + b) == FixedGroup(u, fix, a) + FixedGroup(u, fix, b)
  {
    hide FixedTerm;
  }

  lemma {:induction false} FixedRest(u: Alphabet, fix: Fixes, q: Query)
    requires q != []
    ensures var r := FixedQuery(u, fix, q);
            r != [] && r[0] == FixedGroup(u, fix, q[0]) && r[1..] == FixedQuery(u, fix, q[1..])
  {
    hide FixedGroup;
  }

  lemma {:induction false} FixedNegated(u: Alphabet, fix: Fixes, q: Query)
    ensures Negated(FixedQuery(u, fix, q)) == FixedGroup(u, fix, Negated(q))
  {
    hide FixedTerm, FixedQuery, FixedGroup, NegatedIn;
    if q == [] {
      FixedNothing(u, fix);
    } else {
      FixedRest(u, fix, q);
      FixedNegatedIn(u, fix, q[0]);
      FixedNegated(u, fix, q[1..]);
      FixedConcat(u, fix, NegatedIn(q[0]), Negated(q[1..]));
    }
  }

  lemma {:induction false} FixedNothing(u: Alphabet, fix: Fixes)
    ensures FixedQuery(u, fix, []) == [] && FixedGroup(u, fix, []) == []
  {
  }

  /** The word has a correction that changes it. */
  predicate Changes(u: Alphabet, fix: Fixes, w: string) {
    Fold(u, w) in fix && fix[Fold(u, w)] != w
  }

  lemma {:induction false} FixedTermIs(u: Alphabet, fix: Fixes, t: Term)
    ensures FixedTerm(u, fix, t) == t <==> forall w | w in t.words :: !Changes(u, fix, w)
  {
    hide Fold;
    var ws := FixedWords(u, fix, t.words);
    if forall w | w in t.words :: !Changes(u, fix, w) {
      forall i | 0 <= i < |ws|
        ensures ws[i] == t.words[i]
      {
        assert !Changes(u, fix, t.words[i]);
      }
      assert ws == t.words;
    }
    if ws == t.words {
      forall w | w in t.words
        ensures !Changes(u, fix, w)
      {
        var i :| 0 <= i < |t.words| && t.words[i] == w;
        assert ws[i] == FixedWord(u, fix, w);
      }
    }
  }

  lemma {:induction false} FixedGroupIs(u: Alphabet, fix: Fixes, g: Group)
    ensures FixedGroup(u, fix, g) == g <==> forall t, w | t in g && w in t.words :: !Changes(u, fix, w)
  {
    hide Changes, FixedTerm;
    var r := FixedGroup(u, fix, g);
    if r == g {
      forall t, w | t in g && w in t.words
        ensures !Changes(u, fix, w)
      {
        var i :| 0 <= i < |g| && g[i] == t;
        assert r[i] == FixedTerm(u, fix, t);
        FixedTermIs(u, fix, t);
      }
    }
    if forall t, w | t in g && w in t.words :: !Changes(u, fix, w) {
      forall i | 0 <= i < |g|
        ensures r[i] == g[i]
      {
        FixedTermIs(u, fix, g[i]);
      }
      assert r == g;
    }
  }

  /** Where no ~N is touched: the excluded terms are kept as typed if and only if none of
      their words has a correction that changes it. */
  lemma {:induction false} ExcludedKeptExactly(u: Alphabet, fix: Fixes, s: string)
    requires Lawful(u) && Corrects(u, fix) && NearSafe(u, fix, s)
    ensures Negated(Parsed(u, Replaced(u, fix, s))) == Negated(Parsed(u, s))
       <==> forall t, w | t in Negated(Parsed(u, s)) && w in t.words :: !Changes(u, fix, w)
  {
    hide Parsed, Replaced, NearSafe, Corrects, Lawful, Negated, FixedGroup, Changes;
    RewriteCommutesWithParsing(u, fix, s);
    FixedNegated(u, fix, Parsed(u, s));
    FixedGroupIs(u, fix, Negated(Parsed(u, s)));
  }

  // ----- an excluded word that is corrected -----

  /** The letters of the example are what they look like. */
  predicate Spells(u: Alphabet) {
    forall c | c in {'t', 'e', 'h'} :: u.isWord(c) && u.lower(c) == c && u.fold(c) == c
  }

  const MISSPELT := Term(["teh"], false, false, 0)

  lemma {:induction false} Letters(u: Alphabet)
    requires Spells(u)
    ensures AllWord(u, "teh") && Lower(u, "teh") == "teh" && Fold(u, "teh") == "teh"
    ensures AllWord(u, "the") && Lower(u, "the") == "the"
  {
    assert forall c | c in {'t', 'e', 'h'} :: u.isWord(c) && u.lower(c) == c && u.fold(c) == c;
    assert 't' in {'t', 'e', 'h'} && 'e' in {'t', 'e', 'h'} && 'h' in {'t', 'e', 'h'};
  }

  lemma {:induction false} MisspeltItems(u: Alphabet)
    requires Lawful(u) && Spells(u)
    ensures Items(u, true, "teh -teh") == [One(MISSPELT), One(MISSPELT.(negate := true))]
  {
    hide Items, TokenItems, Lower;
    Letters(u);
    NoWordSpace(u);
    assert "teh" + " -teh" == "teh -teh" && " -teh"[1..] == "-teh" && "-teh"[1..] == "teh" && "teh" + "" == "teh";
    StartsPlain(u, true, "teh -teh");
    WordToken(u, false, "teh", " -teh");
    StartsPlain(u, false, " -teh");
    SkippedRune(u, false, " -teh");
    StartsNegated(u, "-teh");
    WordToken(u, true, "teh", "");
    ItemsOfNothing(u, false);
  }

  lemma {:induction false} NoWordSpace(u: Alphabet)
    requires Lawful(u)
    ensures u.isSpace(' ') && !u.isWord(' ') && !u.isWord('"') && !u.isWord('~') && !u.isWord('-')
  {
  }

  lemma {:induction false} StartsPlain(u: Alphabet, start: bool, s: string)
    requires s != [] && s[0] != '-'
    ensures Items(u, start, s) == TokenItems(u, false, s)
  {
    hide TokenItems;
  }

  lemma {:induction false} StartsNegated(u: Alphabet, s: string)
    requires |s| > 1 && s[0] == '-' && u.isWord(s[1])
    ensures Items(u, true, s) == TokenItems(u, true, s[1..])
  {
    hide TokenItems;
  }

  /** The terms of one group, the first of them positive. */
  lemma {:induction false} OneGroup(u: Alphabet, s: string, a: Term, b: Term)
    requires Items(u, true, s) == [One(a), One(b)] && !a.negate
    ensures Parsed(u, s) == [[a, b]]
  {
    hide Items;
    var xs := [One(a), One(b)];
    assert xs[1..] == [One(b)] && [One(b)][1..] == [] && [] + [a] == [a] && [a] + [b] == [a, b];
    assert Groups([], [a, b]) == [[a, b]];
    assert Groups([One(b)], [a]) == Groups([], [a, b]);
    assert Groups(xs, []) == Groups([One(b)], [a]);
    assert Positives([]) == [] && [[a, b]][1..] == [];
    assert [a, b][0] == a;
    assert Positive([a, b]);
  }

  lemma {:induction false} OneTerm(u: Alphabet, s: string, t: Term)
    requires Items(u, true, s) == [One(t)] && !t.negate
    ensures Parsed(u, s) == [[t]]
  {
    hide Items;
    assert [One(t)][1..] == [] && [] + [t] == [t];
    assert Groups([One(t)], []) == Groups([], [t]) == [[t]];
    assert Positives([]) == [];
    assert [t][0] == t && [[t]][1..] == [];
    assert Positive([t]);
  }

  /** "teh -teh", corrected for its first word, no longer excludes "teh" but "the". */
  lemma {:induction false} ExcludedIsRewritten(u: Alphabet)
    requires Lawful(u) && Spells(u)
    ensures var s, fix := "teh -teh", map["teh" := "the"];
            && Corrects(u, fix) && CorrectsWordsOf(u, fix, Parsed(u, s)) && NearSafe(u, fix, s)
            && Negated(Parsed(u, s)) == [MISSPELT.(negate := true)]
            && Negated(Parsed(u, Replaced(u, fix, s))) == [Term(["the"], false, true, 0)]
  {
    hide Lawful, Spells, Parsed, Replaced, NearSafe, Items, Lower, Fold;
    var s, fix := "teh -teh", map["teh" := "the"];
    Letters(u);
    MisspeltItems(u);
    OneGroup(u, s, MISSPELT, MISSPELT.(negate := true));
    WithoutTilde(u, fix, s);
    RewriteCommutesWithParsing(u, fix, s);
    FixedNegated(u, fix, Parsed(u, s));
    MisspeltNegated(u, fix);
    PositiveWordIs(u, MISSPELT, [MISSPELT, MISSPELT.(negate := true)], "teh");
  }

  lemma {:induction false} PositiveWordIs(u: Alphabet, t: Term, g: Group, w: string)
    requires t in g && w in t.words && !t.negate && Fold(u, w) == w
    ensures PositiveWord(u, [g], w)
  {
    hide Fold;
    assert g in [g];
  }

  lemma {:induction false} MisspeltNegated(u: Alphabet, fix: Fixes)
    requires fix == map["teh" := "the"] && Fold(u, "teh") == "teh"
    ensures var n := MISSPELT.(negate := true);
            && Negated([[MISSPELT, n]]) == [n] && FixedGroup(u, fix, [n]) == [Term(["the"], false, true, 0)]
  {
    hide Fold;
    var n := MISSPELT.(negate := true);
    var g: Group := [MISSPELT, n];
    var q: Query := [g];
    assert g[1..] == [n] && [n][1..] == [] && q[1..] == [];
    assert NegatedIn([]) == [] && NegatedIn([n]) == [n] && NegatedIn(g) == [n];
    assert Negated([]) == [];
    assert FixedWords(u, fix, ["teh"]) == ["the"];
  }

  // ----- a corrected ~N -----

  const PLAIN := "300 " + (['"'] + [] + ['"'] + "~300")
  const FIXED := "3000 " + (['"'] + [] + ['"'] + "~3000")

  lemma {:induction false} Numerals(u: Alphabet)
    requires Lawful(u)
    ensures AllWord(u, "300") && Lower(u, "300") == "300" && Fold(u, "300") == "300"
    ensures AllWord(u, "3000") && Lower(u, "3000") == "3000" && AllWord(u, "0") && Lower(u, "0") == "0"
  {
    assert Digit('3') && Digit('0');
  }

  /** A number, and an empty phrase with a ~N of more digits than are read. */
  lemma {:induction false} NumberItems(u: Alphabet, w: string, rest: string)
    requires Lawful(u) && w != [] && AllWord(u, w) && |w| >= 3 && w[3..] == rest && Lower(u, w) == w && w != "or"
    requires forall i | 0 <= i < 3 :: Digit(w[i])
    ensures Items(u, true, w + " " + (['"'] + [] + ['"'] + (['~'] + w)))
         == [One(Term([w], false, false, 0))] + Items(u, false, rest)
  {
    hide Items, TokenItems, Lower, Digit;
    var phrase := ['"'] + [] + ['"'] + (['~'] + w);
    var tail := " " + phrase;
    var s := w + " " + phrase;
    NoWordSpace(u);
    assert s == w + tail && tail[1..] == phrase && s[0] == w[0];
    StartsPlain(u, true, s);
    WordToken(u, false, w, tail);
    StartsPlain(u, false, tail);
    SkippedRune(u, false, tail);
    EmptyPhrase(u, ['~'] + w, w, rest);
  }

  /** An empty phrase contributes nothing; three digits after it are its N. */
  lemma {:induction false} EmptyPhrase(u: Alphabet, near: string, digits: string, rest: string)
    requires Lawful(u) && near == ['~'] + digits && |digits| >= 3 && digits[3..] == rest
    requires forall i | 0 <= i < 3 :: Digit(digits[i])
    ensures Items(u, true, ['"'] + [] + ['"'] + near) == Items(u, false, rest)
  {
    hide SplitWords, TokenItems;
    var s := ['"'] + [] + ['"'] + near;
    assert near[1..] == digits && near[4..] == rest;
    DigitsIs(digits, 3, 3);
    SplitNothing(u);
    QuoteToken(u, false, [], near);
    assert NearLength(near) == 4;
    assert PhraseItems([], false, NearValue(near)) == [];
    assert s[0] == '"' && Items(u, true, s) == TokenItems(u, false, s);
    assert near[NearLength(near)..] == rest;
  }

  /** Rewriting touches the number and the ~N alike. */
  lemma {:induction false} NumberReplaced(u: Alphabet)
    requires Lawful(u)
    ensures Replaced(u, map["300" := "3000"], PLAIN) == FIXED
  {
    hide Replaced, Lawful, Lower, Fold;
    var fix := map["300" := "3000"];
    var phrase := ['"'] + [] + ['"'] + "~300";
    Numerals(u);
    NoWordSpace(u);
    assert PLAIN == "300" + (" " + phrase) && (" " + phrase)[1..] == phrase;
    ReplacedWord(u, fix, "300", " " + phrase);
    ReplacedOther(u, fix, " " + phrase);
    ReplacedQuote(u, fix, [], "~300");
    ReplacedNothing(u, fix);
    assert "~300"[1..] == "300" && "300" + [] == "300";
    ReplacedOther(u, fix, "~300");
    ReplacedWord(u, fix, "300", []);
    assert "3000" + [] == "3000" && ['~'] + "3000" == "~3000" && ['"'] + [] + ['"'] + "~3000" == ['"', '"'] + "~3000";
    assert "3000" + ([' '] + (['"'] + [] + ['"'] + "~3000")) == FIXED;
  }

  /** The condition on ~N is needed: the correction of "300" rewrites the N of ""~300 into
      3000, of which three digits are read as N and the last as a word. */
  lemma {:induction false} NearIsNotKeptAsTyped(u: Alphabet)
    requires Lawful(u)
    ensures var fix := map["300" := "3000"];
            && Corrects(u, fix) && CorrectsWordsOf(u, fix, Parsed(u, PLAIN))
            && Parsed(u, PLAIN) == [[Term(["300"], false, false, 0)]]
            && Parsed(u, Replaced(u, fix, PLAIN)) == [[Term(["3000"], false, false, 0), Term(["0"], false, false, 0)]]
  {
    hide Replaced, Parsed, Items, Lawful, Lower, Fold;
    Numerals(u);
    NumberReplaced(u);
    assert Digit('3') && Digit('0');
    assert ['~'] + "300" == "~300" && ['~'] + "3000" == "~3000" && "300" + " " == "300 " && "3000" + " " == "3000 ";
    NumberItems(u, "300", "");
    NumberItems(u, "3000", "0");
    ItemsOfNothing(u, false);
    assert "0" + [] == "0";
    WordItems(u, "0", []);
    OneTerm(u, PLAIN, Term(["300"], false, false, 0));
    OneGroup(u, FIXED, Term(["3000"], false, false, 0), Term(["0"], false, false, 0));
    PositiveWordIs(u, Term(["300"], false, false, 0), [Term(["300"], false, false, 0)], "300");
  }
}
