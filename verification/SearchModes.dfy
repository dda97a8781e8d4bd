/**
  What a search finds in a document, and that each mode finds what it is documented to find.
 */
module SearchModes {
  import opened SearchText
  import opened SearchPrint

  /** The words of a document, in order. */
  type Document = seq<string>

  predicate Follow(doc: Document, words: seq<string>, i: nat) {
    i + |words| <= |doc| && doc[i..i + |words|] == words
  }

  predicate Near2(doc: Document, words: seq<string>, near: nat, i: nat, j: nat)
    requires |words| == 2
  {
    i < |doc| && j < |doc| && doc[i] == words[0] && doc[j] == words[1] && i <= j + near && j <= i + near
  }

  /** The term occurs: two words near each other in either order, a word as a prefix of
      another, or its words together and in order. */
  ghost predicate Occurs(doc: Document, t: Term) {
    if t.near > 0 && |t.words| == 2 then exists i, j :: Near2(doc, t.words, t.near, i, j)
    else if t.prefix && |t.words| == 1 then exists d :: d in doc && t.words[0] <= d
    else exists i :: Follow(doc, t.words, i)
  }

  /** Every term of a group occurs, or does not if it is negated. */
  ghost predicate MatchesGroup(doc: Document, g: Group) {
    forall i | 0 <= i < |g| :: Occurs(doc, g[i]) != g[i].negate
  }

  ghost predicate Matches(doc: Document, q: Query) {
    exists k | 0 <= k < |q| :: MatchesGroup(doc, q[k])
  }

  lemma {:induction false} WordOccurs(doc: Document, w: string)
    ensures Occurs(doc, WordTerm(w, false)) <==> w in doc
  {
    forall i: nat | Follow(doc, [w], i)
      ensures w in doc
    {
      assert doc[i..i + 1][0] == doc[i];
    }
    if w in doc {
      var i :| 0 <= i < |doc| && doc[i] == w;
      assert Follow(doc, [w], i);
    }
  }

  lemma {:induction false} PrefixOccurs(doc: Document, w: string)
    ensures Occurs(doc, WordTerm(w, true)) <==> exists d :: d in doc && w <= d
  {
  }

  lemma {:induction false} OneGroup(doc: Document, g: Group)
    requires forall i | 0 <= i < |g| :: !g[i].negate
    ensures Matches(doc, Positives([g])) <==> g != [] && MatchesGroup(doc, g)
  {
    hide MatchesGroup;
    assert [g][1..] == [] && Positives([]) == [];
    if g != [] {
      assert !g[0].negate;
      assert Positives([g]) == [g];
      assert MatchesGroup(doc, g) ==> MatchesGroup(doc, [g][0]);
    }
  }

  lemma {:induction false} WordsMatch(doc: Document, ws: seq<string>, prefix: bool)
    ensures MatchesGroup(doc, WordTerms(ws, prefix)) <==>
            forall w | w in ws :: if prefix then exists d :: d in doc && w <= d else w in doc
  {
    hide Occurs;
    var g := WordTerms(ws, prefix);
    forall i | 0 <= i < |ws|
      ensures (Occurs(doc, g[i]) != g[i].negate)
              <==> if prefix then exists d :: d in doc && ws[i] <= d else ws[i] in doc
    {
      WordOccurs(doc, ws[i]);
      PrefixOccurs(doc, ws[i]);
    }
    assert forall i | 0 <= i < |ws| :: ws[i] in ws;
  }

  /** All terms: every word occurs. Any term: some word does. Prefix: every word begins a
      word of the document. Phrase: the words occur together and in order. No words, no match. */
  lemma {:induction false} ModesFind(u: Alphabet, s: string, doc: Document)
    ensures var ws := SplitWords(u, s);
            && (Matches(doc, ParsedIn(u, AllTerms, s)) <==> ws != [] && forall w | w in ws :: w in doc)
            && (Matches(doc, ParsedIn(u, AnyTerm, s)) <==> exists w :: w in ws && w in doc)
            && (Matches(doc, ParsedIn(u, Prefix, s)) <==>
                ws != [] && forall w | w in ws :: exists d :: d in doc && w <= d)
            && (Matches(doc, ParsedIn(u, Phrase, s)) <==> ws != [] && exists i :: Follow(doc, ws, i))
  {
    hide SplitWords, MatchesGroup, Occurs, Follow, Positives;
    var ws := SplitWords(u, s);
    WordsMatch(doc, ws, false);
    WordsMatch(doc, ws, true);
    OneGroup(doc, WordTerms(ws, false));
    OneGroup(doc, WordTerms(ws, true));
    AnyFinds(u, s, doc);
    PhraseFinds(u, s, doc);
  }

  lemma {:induction false} OneTerm(doc: Document, t: Term)
    requires !t.negate
    ensures MatchesGroup(doc, [t]) <==> Occurs(doc, t)
  {
    hide Occurs;
    assert MatchesGroup(doc, [t]) ==> Occurs(doc, [t][0]);
  }

  lemma {:induction false} AnyFinds(u: Alphabet, s: string, doc: Document)
    ensures Matches(doc, ParsedIn(u, AnyTerm, s)) <==> exists w :: w in SplitWords(u, s) && w in doc
  {
    hide SplitWords, MatchesGroup, Occurs;
    var ws, q := SplitWords(u, s), ParsedIn(u, AnyTerm, s);
    forall i | 0 <= i < |ws|
      ensures MatchesGroup(doc, q[i]) <==> ws[i] in doc
    {
      OneTerm(doc, WordTerm(ws[i], false));
      WordOccurs(doc, ws[i]);
    }
    forall w | w in ws && w in doc
      ensures Matches(doc, q)
    {
      var i :| 0 <= i < |ws| && ws[i] == w;
      assert MatchesGroup(doc, q[i]);
    }
  }

  lemma {:induction false} PhraseFinds(u: Alphabet, s: string, doc: Document)
    ensures var ws := SplitWords(u, s);
            Matches(doc, ParsedIn(u, Phrase, s)) <==> ws != [] && exists i :: Follow(doc, ws, i)
  {
    hide SplitWords, MatchesGroup, Follow;
    var ws := SplitWords(u, s);
    var t := Term(ws, false, false, 0);
    OneTerm(doc, t);
    if ws != [] {
      assert ParsedIn(u, Phrase, s) == [[t]];
      assert MatchesGroup(doc, [t]) ==> MatchesGroup(doc, [[t]][0]);
    }
  }
}
