/**
  When comments leave the same tokens on the lines of the layout as on their own: the exact
  condition for one comment, and for any number of comments in which no line starts.
 */
module SqlCommentDrops {
  import opened SqlTokens
  import opened SqlFormatRoundTrip
  import opened SqlFormatText
  import opened SqlBreaks
  import opened SqlComments
  import opened SqlLines
  import opened SqlCommentLaws

  // ----- which tokens are dropped -----

  /** For each token, whether a comment drops it. */
  function Drops(ts: seq<Token>, lines: seq<bool>, dropping: bool): (r: seq<bool>)
    requires |ts| == |lines|
    ensures |r| == |ts|
  {
    if ts == [] then []
    else
      var dropped := dropping && !lines[0];
      [dropped] + Drops(ts[1..], lines[1..], dropped || Opens(ts[0]))
  }

  /** A comment without anything before its dashes. */
  predicate Bare(t: Token) {
    Opens(t) && Head(t) == []
  }

  /** Lines that drop more: the same tokens are left exactly when all that is dropped
      besides are the dashes of further comments. */
  lemma {:induction false} DropsMore(ts: seq<Token>, a: seq<bool>, b: seq<bool>, da: bool, db: bool)
    requires |ts| == |a| == |b| && (da ==> db)
    requires forall i | 0 <= i < |ts| && Drops(ts, a, da)[i] :: !b[i]
    ensures |Survivors(ts, b, db)| <= |Survivors(ts, a, da)|
    ensures Survivors(ts, b, db) == Survivors(ts, a, da)
       <==> forall i | 0 <= i < |ts| && Drops(ts, b, db)[i] :: Drops(ts, a, da)[i] || Bare(ts[i])
    ensures forall i | 0 <= i < |ts| && Drops(ts, a, da)[i] :: Drops(ts, b, db)[i]
    decreases |ts|
  {
    hide Opens, Head;
    if ts != [] {
      var t, rest := ts[0], ts[1..];
      var xa, xb := da && !a[0], db && !b[0];
      var na, nb := xa || Opens(t), xb || Opens(t);
      var ra, rb := Drops(rest, a[1..], na), Drops(rest, b[1..], nb);
      assert Drops(ts, a, da) == [xa] + ra && Drops(ts, b, db) == [xb] + rb;
      assert Drops(ts, a, da)[0] == xa;
      forall i | 0 <= i < |rest| && ra[i]
        ensures !b[1..][i]
      {
        assert Drops(ts, a, da)[i + 1] == ra[i];
      }
      DropsMore(rest, a[1..], b[1..], na, nb);
      DropsHead(t, rest, [xa] + ra, [xb] + rb);
      KeptHead(ts, a, da);
      KeptHead(ts, b, db);
      HeadsEqual(if xb then [] else Kept(t), if xa then [] else Kept(t), Survivors(rest, b[1..], nb),
                 Survivors(rest, a[1..], na));
    }
  }

  /** What a token that is not dropped leaves. */
  function Kept(t: Token): (r: seq<Token>)
    ensures r == [] <==> Bare(t)
    ensures |r| <= 1
  {
    if Opens(t) then Head(t) else [t]
  }

  lemma {:induction false} KeptHead(ts: seq<Token>, lines: seq<bool>, dropping: bool)
    requires |ts| == |lines| && ts != []
    ensures var x := dropping && !lines[0];
            Survivors(ts, lines, dropping)
            == (if x then [] else Kept(ts[0])) + Survivors(ts[1..], lines[1..], x || Opens(ts[0]))
  {
    hide Opens, Head;
  }

  lemma {:induction false} DropsHead(t: Token, ts: seq<Token>, xs: seq<bool>, ys: seq<bool>)
    requires |xs| == |ys| == |ts| + 1
    ensures var all := [t] + ts;
            (forall i | 0 <= i < |all| && ys[i] :: xs[i] || Bare(all[i]))
            <==> (ys[0] ==> xs[0] || Bare(t)) && (forall i | 0 <= i < |ts| && ys[1..][i] :: xs[1..][i] || Bare(ts[i]))
  {
    hide Bare;
    var all := [t] + ts;
    if (ys[0] ==> xs[0] || Bare(t)) && (forall i | 0 <= i < |ts| && ys[1..][i] :: xs[1..][i] || Bare(ts[i])) {
      forall i | 0 <= i < |all| && ys[i]
        ensures xs[i] || Bare(all[i])
      {
        if i > 0 {
          assert ys[1..][i - 1] && all[i] == ts[i - 1];
        }
      }
    }
    if forall i | 0 <= i < |all| && ys[i] :: xs[i] || Bare(all[i]) {
      assert all[0] == t;
      forall i | 0 <= i < |ts| && ys[1..][i]
        ensures xs[1..][i] || Bare(ts[i])
      {
        assert ys[i + 1] && all[i + 1] == ts[i];
      }
    }
  }

  lemma {:induction false} HeadsEqual(p: seq<Token>, q: seq<Token>, s: seq<Token>, r: seq<Token>)
    requires (p == [] || p == q) && |s| <= |r|
    ensures p + s == q + r <==> p == q && s == r
  {
    if p + s == q + r {
      assert |p| == |q|;
      assert p == q;
      assert (p + s)[|p|..] == s && (q + r)[|q|..] == r;
    }
  }

  // ----- the last token, trimmed -----

  lemma {:induction false} LastSurvives(ts: seq<Token>, t: Token, lines: seq<bool>, l: bool, dropping: bool)
    requires |ts| == |lines| && !Opens(t)
    ensures var dropped := Drops(ts + [t], lines + [l], dropping)[|ts|];
            Survivors(ts + [t], lines + [l], dropping) == Survivors(ts, lines, dropping) + (if dropped then [] else [t])
    decreases |ts|
  {
    hide Opens, Head;
    var all, flags := ts + [t], lines + [l];
    if ts == [] {
      assert all[1..] == [] && flags[1..] == [];
    } else {
      assert all[1..] == ts[1..] + [t] && flags[1..] == lines[1..] + [l];
      KeptHead(all, flags, dropping);
      KeptHead(ts, lines, dropping);
      LastSurvives(ts[1..], t, lines[1..], l, (dropping && !lines[0]) || Opens(ts[0]));
    }
  }

  /** Which tokens are dropped does not depend on a token that starts no comment. */
  lemma {:induction false} LastDrops(ts: seq<Token>, t: Token, c: Token, lines: seq<bool>, dropping: bool)
    requires |ts| + 1 == |lines| && !Opens(t) && !Opens(c)
    ensures Drops(ts + [t], lines, dropping) == Drops(ts + [c], lines, dropping)
    decreases |ts|
  {
    hide Opens;
    if ts != [] {
      assert (ts + [t])[1..] == ts[1..] + [t] && (ts + [c])[1..] == ts[1..] + [c];
      LastDrops(ts[1..], t, c, lines[1..], (dropping && !lines[0]) || Opens(ts[0]));
    }
  }

  /** Trimming the last token changes what is left exactly when it changes it and keeps it. */
  lemma {:induction false} ChoppedSurvivors(u: Runes, ts: seq<Token>, lines: seq<bool>)
    requires Lawful(u) && Readable(u, ts) && LosesBlanks(u, ts) && |lines| == |ts|
    ensures var n := |ts| - 1;
            var left := Survivors(ts[..n], lines[..n], false);
            if Drops(ts, lines, false)[n]
            then Survivors(ChopLast(u, ts), lines, false) == left == Survivors(ts, lines, false)
            else && Survivors(ChopLast(u, ts), lines, false) == left + [Chopped(u, ts[n])]
                 && Survivors(ts, lines, false) == left + [ts[n]] && Chopped(u, ts[n]) != ts[n]
  {
    hide Lawful, Proper, Closed, Survivors, Drops, Chopped;
    var n := |ts| - 1;
    var t := ts[n];
    var c := Chopped(u, t);
    assert Proper(u, t);
    ChoppedIsSame(u, t);
    ChoppedChanges(u, t);
    ChoppedKind(u, t);
    assert ts == ts[..n] + [t] && lines == lines[..n] + [lines[n]];
    LastSurvives(ts[..n], t, lines[..n], lines[n], false);
    LastSurvives(ts[..n], c, lines[..n], lines[n], false);
    LastDrops(ts[..n], t, c, lines, false);
    var left := Survivors(ts[..n], lines[..n], false);
    assert left + [] == left;
  }

  // ----- comments in which no line starts -----

  /** Any number of comments, none of whose tokens starts a line of the layout: the formatted
      statement reads the same if and only if no token outside the comments follows one on
      its line, and no open quote outside them is trimmed. */
  lemma {:induction false} CommentsSwallowNothing(u: Runes, q: string)
    requires Lawful(u) && NoGlue(Tokens(u, q))
    requires !Cuts(Tokens(u, q), Lines(u, q, false)) && !Cuts(ChopLast(u, Tokens(u, q)), Breaks(u, Tokens(u, q)))
    requires forall i | 0 <= i < |Tokens(u, q)| && Drops(Tokens(u, q), Lines(u, q, false), false)[i] ::
               !Breaks(u, Tokens(u, q))[i]
    ensures var ts, lines := Tokens(u, q), Lines(u, q, false);
            Read(u, Format(u, q)) == Read(u, q) <==>
              && (forall i | 0 <= i < |ts| && Drops(ts, Breaks(u, ts), false)[i] ::
                    Drops(ts, lines, false)[i] || Bare(ts[i]))
              && (LosesBlanks(u, ts) ==> Drops(ts, lines, false)[|ts| - 1])
  {
    hide Lawful, Tokens, Format, NoGlue, ChopLast, Lines, Breaks, Survivors, Cuts, Read, Drops, Readable, LosesBlanks,
         Bare;
    var ts, lines := Tokens(u, q), Lines(u, q, false);
    var breaks := Breaks(u, ts);
    TokensAreReadable(u, q);
    ChopLastReadable(u, ts);
    CommentsReadTheSame(u, q);
    DropsMore(ts, lines, breaks, false, false);
    if LosesBlanks(u, ts) {
      LastMatters(u, ts, lines, breaks);
    }
  }

  lemma {:induction false} LastMatters(u: Runes, ts: seq<Token>, lines: seq<bool>, breaks: seq<bool>)
    requires Lawful(u) && Readable(u, ts) && LosesBlanks(u, ts) && |lines| == |breaks| == |ts|
    requires var same := Survivors(ts, breaks, false) == Survivors(ts, lines, false);
             && (same <==> forall i | 0 <= i < |ts| && Drops(ts, breaks, false)[i] ::
                             Drops(ts, lines, false)[i] || Bare(ts[i]))
             && (forall i | 0 <= i < |ts| && Drops(ts, lines, false)[i] :: Drops(ts, breaks, false)[i])
    ensures Survivors(ChopLast(u, ts), breaks, false) == Survivors(ts, lines, false)
       <==> && (forall i | 0 <= i < |ts| && Drops(ts, breaks, false)[i] :: Drops(ts, lines, false)[i] || Bare(ts[i]))
            && Drops(ts, lines, false)[|ts| - 1]
  {
    hide Lawful, ChopLast, Survivors, Drops, Readable, Chopped, Head, Proper, Closed;
    var n := |ts| - 1;
    ChoppedSurvivors(u, ts, lines);
    ChoppedSurvivors(u, ts, breaks);
    OpenIsNotBare(u, ts);
    LastsDiffer(Survivors(ts[..n], breaks[..n], false), Chopped(u, ts[n]), Survivors(ts[..n], lines[..n], false),
      ts[n]);
  }

  lemma {:induction false} LastsDiffer(a: seq<Token>, x: Token, b: seq<Token>, y: Token)
    ensures a + [x] == b + [y] ==> x == y
  {
    assert (a + [x])[|a|] == x && (b + [y])[|b|] == y;
  }

  lemma {:induction false} OpenIsNotBare(u: Runes, ts: seq<Token>)
    requires Lawful(u) && Readable(u, ts) && LosesBlanks(u, ts)
    ensures !Bare(ts[|ts| - 1])
  {
    hide Lawful, Proper, Closed, Head, Dashes;
    assert Proper(u, ts[|ts| - 1]);
    ChoppedIsSame(u, ts[|ts| - 1]);
  }

  // ----- one comment -----

  /** The first token from i on that starts a line. */
  function LineEnd(lines: seq<bool>, i: nat): (e: nat)
    requires i <= |lines|
    ensures i <= e <= |lines| && (e < |lines| ==> lines[e]) && forall k | i <= k < e :: !lines[k]
    decreases |lines| - i
  {
    if i == |lines| || lines[i] then i else LineEnd(lines, i + 1)
  }

  /** Token d starts the only comment. */
  predicate OnlyComment(ts: seq<Token>, d: nat) {
    d < |ts| && Opens(ts[d]) && forall i | 0 <= i < |ts| && i != d :: !Opens(ts[i])
  }

  lemma {:induction false} AfterComment(ts: seq<Token>, lines: seq<bool>, i: nat, dropping: bool)
    requires |ts| == |lines| && i <= |ts| && forall k | i <= k < |ts| :: !Opens(ts[k])
    ensures Survivors(ts[i..], lines[i..], dropping) == if dropping then ts[LineEnd(lines, i)..] else ts[i..]
    decreases |ts| - i
  {
    hide Opens, Head;
    if i < |ts| {
      assert ts[i..][0] == ts[i] && lines[i..][0] == lines[i] && ts[i..][1..] == ts[i + 1..]
             && lines[i..][1..] == lines[i + 1..];
      assert !Opens(ts[i]);
      AfterComment(ts, lines, i + 1, dropping && !lines[i]);
      assert [ts[i]] + ts[i + 1..] == ts[i..];
    }
  }

  lemma {:induction false} OneSurvivors(ts: seq<Token>, lines: seq<bool>, d: nat, i: nat)
    requires |ts| == |lines| && OnlyComment(ts, d) && i <= d
    ensures Survivors(ts[i..], lines[i..], false) == ts[i..d] + (Head(ts[d]) + ts[LineEnd(lines, d + 1)..])
    decreases d - i
  {
    hide Opens, Head;
    var e := LineEnd(lines, d + 1);
    assert ts[i..][0] == ts[i] && ts[i..][1..] == ts[i + 1..] && lines[i..][1..] == lines[i + 1..];
    if i == d {
      AfterComment(ts, lines, d + 1, true);
      assert ts[d..d] == [];
    } else {
      OneSurvivors(ts, lines, d, i + 1);
      assert ts[i..d] == [ts[i]] + ts[i + 1..d];
    }
  }

  /** A statement with one comment, started by token d and ending before token e: the
      formatted statement reads the same if and only if no token of the comment starts a
      line of the layout, and the one after the comment does. */
  lemma {:induction false} CommentReadsTheSame(u: Runes, q: string, d: nat)
    requires Lawful(u) && NoGlue(Tokens(u, q)) && OnlyComment(Tokens(u, q), d)
    requires !Cuts(Tokens(u, q), Lines(u, q, false)) && !Cuts(ChopLast(u, Tokens(u, q)), Breaks(u, Tokens(u, q)))
    ensures var ts := Tokens(u, q);
            var e := LineEnd(Lines(u, q, false), d + 1);
            Read(u, Format(u, q)) == Read(u, q) <==>
              && (forall i | d < i < e :: !BreaksBefore(u, ts, i))
              && (e < |ts| ==> BreaksBefore(u, ts, e) && !LosesBlanks(u, ts))
  {
    hide Lawful, Tokens, Format, NoGlue, ChopLast, Lines, Breaks, Survivors, Cuts, Read, Readable, LosesBlanks,
         BreaksBefore, Opens, Head;
    var ts, lines := Tokens(u, q), Lines(u, q, false);
    var cs, breaks := ChopLast(u, ts), Breaks(u, ts);
    TokensAreReadable(u, q);
    ChopLastReadable(u, ts);
    CommentsReadTheSame(u, q);
    ChoppedComment(u, ts, d);
    OneSurvivors(ts, lines, d, 0);
    OneSurvivors(cs, breaks, d, 0);
    assert ts[0..] == ts && lines[0..] == lines && cs[0..] == cs && breaks[0..] == breaks;
    var e, e' := LineEnd(lines, d + 1), LineEnd(breaks, d + 1);
    RestsEqual(ts[0..d] + Head(ts[d]), ts, cs, e, e');
    assert ts[0..d] + (Head(ts[d]) + ts[e..]) == ts[0..d] + Head(ts[d]) + ts[e..];
    assert cs[0..d] + (Head(cs[d]) + cs[e'..]) == ts[0..d] + Head(ts[d]) + cs[e'..];
    LineEndExactly(u, ts, d, e);
    TailsEqual(u, ts, e);
  }

  lemma {:induction false} ChoppedComment(u: Runes, ts: seq<Token>, d: nat)
    requires Lawful(u) && Readable(u, ts) && OnlyComment(ts, d)
    ensures var cs := ChopLast(u, ts); OnlyComment(cs, d) && cs[..d] == ts[..d] && cs[d] == ts[d]
  {
    hide Lawful, Proper, Closed, Chopped, Dashes;
    var n, cs := |ts| - 1, ChopLast(u, ts);
    assert Proper(u, ts[n]) && Proper(u, ts[d]);
    ChoppedIsSame(u, ts[n]);
    ChoppedKind(u, ts[n]);
    assert forall i | 0 <= i < n :: cs[i] == ts[i];
    assert cs[n] == Chopped(u, ts[n]);
  }

  lemma {:induction false} RestsEqual(p: seq<Token>, ts: seq<Token>, cs: seq<Token>, e: nat, e': nat)
    requires |ts| == |cs| && e <= |ts| && e' <= |ts|
    ensures p + cs[e'..] == p + ts[e..] <==> e' == e && cs[e..] == ts[e..]
  {
    if p + cs[e'..] == p + ts[e..] {
      assert |p + cs[e'..]| == |p + ts[e..]|;
      assert (p + cs[e'..])[|p|..] == cs[e'..] && (p + ts[e..])[|p|..] == ts[e..];
    }
  }

  lemma {:induction false} LineEndExactly(u: Runes, ts: seq<Token>, d: nat, e: nat)
    requires d < e <= |ts|
    ensures LineEnd(Breaks(u, ts), d + 1) == e
       <==> (forall i | d < i < e :: !BreaksBefore(u, ts, i)) && (e < |ts| ==> BreaksBefore(u, ts, e))
  {
    hide BreaksBefore, BreaksTo;
    forall i | 0 <= i < |ts|
      ensures Breaks(u, ts)[i] == BreaksBefore(u, ts, i)
    {
      BreaksAt(u, ts, |ts|, i);
    }
  }

  lemma {:induction false} TailsEqual(u: Runes, ts: seq<Token>, e: nat)
    requires Lawful(u) && Readable(u, ts) && e <= |ts|
    ensures ChopLast(u, ts)[e..] == ts[e..] <==> (e < |ts| ==> !LosesBlanks(u, ts))
  {
    hide Lawful, Proper, Closed, Chopped;
    ChopLastReadable(u, ts);
    var n, cs := |ts| - 1, ChopLast(u, ts);
    if e < |ts| && cs[e..] == ts[e..] {
      assert cs[n] == cs[e..][n - e] == ts[e..][n - e] == ts[n];
      assert ts == ts[..n] + [ts[n]];
    }
  }
}
