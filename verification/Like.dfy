/**
  LIKE with an ESCAPE character, and the escaping that makes a pattern literal.

  A pattern is matched by the rules every dialect shares: % matches any run, _ any
  one character, '!' makes the next character literal. A dialect may add wildcards of
  its own (the character class '[' of T-SQL); what those match is a parameter, so the
  results below hold whatever it is. Characters are compared by a parameter too, so
  LIKE (equality) and ILIKE (equality up to case) are both covered.
 */
module Like {

  const ESCAPE := '!'

  /** The dialect's LIKE: its extra wildcards, what a pattern starting with one of them
      matches, and when a pattern character and a text character are the same. */
  datatype Matcher = Matcher(extra: string,
                             wild: (string, string) -> bool,
                             same: (char, char) -> bool)

  predicate Special(extra: string, c: char) {
    c == ESCAPE || c == '%' || c == '_' || c in extra
  }

  // ----- escaping -----

  /** s with every special character preceded by the escape character. */
  function Escaped(extra: string, s: string): string {
    if s == [] then []
    else if Special(extra, s[0]) then [ESCAPE, s[0]] + Escaped(extra, s[1..])
    else [s[0]] + Escaped(extra, s[1..])
  }

  lemma {:induction false} EscapedConcat(extra: string, s: string, t: string)
    ensures Escaped(extra, s + t) == Escaped(extra, s) + Escaped(extra, t)
  {
    if s == [] {
      assert s + t == t;
    } else {
      assert (s + t)[1..] == s[1..] + t;
      EscapedConcat(extra, s[1..], t);
    }
  }

  /** The loop of the source: one pass over the text, appending to a buffer. */
  method EscapeLike(extra: string, s: string) returns (b: string)
    ensures b == Escaped(extra, s)
  {
    b := [];
    for i := 0 to |s|
      invariant b == Escaped(extra, s[..i])
    {
      assert s[..i + 1] == s[..i] + [s[i]];
      EscapedConcat(extra, s[..i], [s[i]]);
      assert [s[i]][1..] == [];
      if Special(extra, s[i]) {
        b := b + [ESCAPE];
      }
      b := b + [s[i]];
    }
    assert s[..|s|] == s;
  }

  // ----- matching -----

  /** Whether pattern p matches the whole of t. */
  predicate Matches(m: Matcher, p: string, t: string)
    decreases |p|, |t|
  {
    if p == [] then t == []
    else if p[0] == '%' then Matches(m, p[1..], t) || (t != [] && Matches(m, p, t[1..]))
    else if p[0] == '_' then t != [] && Matches(m, p[1..], t[1..])
    else if p[0] == ESCAPE then |p| > 1 && t != [] && m.same(p[1], t[0]) && Matches(m, p[2..], t[1..])
    else if p[0] in m.extra then m.wild(p, t)
    else t != [] && m.same(p[0], t[0]) && Matches(m, p[1..], t[1..])
  }

  /** s and t have the same characters, up to the matcher's comparison. */
  predicate SameText(m: Matcher, s: string, t: string) {
    |s| == |t| && forall i | 0 <= i < |s| :: m.same(s[i], t[i])
  }

  /** s occurs in t as a contiguous run starting at k. */
  predicate OccursAt(m: Matcher, s: string, t: string, k: nat) {
    k + |s| <= |t| && SameText(m, s, t[k..k + |s|])
  }

  ghost predicate Occurs(m: Matcher, s: string, t: string) {
    exists k: nat :: OccursAt(m, s, t, k)
  }

  lemma {:induction false} SameTextCons(m: Matcher, s: string, t: string)
    requires |s| == |t| > 0
    ensures SameText(m, s, t) <==> m.same(s[0], t[0]) && SameText(m, s[1..], t[1..])
  {
    assert forall i | 0 < i < |s| :: s[i] == s[1..][i - 1] && t[i] == t[1..][i - 1];
  }

  /** A pattern that starts with escaped text matches exactly when the text starts with
      that text and the rest of the pattern matches what follows. */
  lemma {:induction false} EscapedPrefix(m: Matcher, s: string, p: string, t: string)
    ensures Matches(m, Escaped(m.extra, s) + p, t)
       <==> |s| <= |t| && SameText(m, s, t[..|s|]) && Matches(m, p, t[|s|..])
  {
    var e := Escaped(m.extra, s);
    if s == [] {
      assert e + p == p;
      assert t[0..] == t;
    } else {
      var rest := Escaped(m.extra, s[1..]) + p;
      if Special(m.extra, s[0]) {
        assert (e + p)[2..] == rest && (e + p)[1] == s[0];
      } else {
        assert (e + p)[1..] == rest;
      }
      if t != [] {
        EscapedPrefix(m, s[1..], p, t[1..]);
        if |s| <= |t| {
          assert t[1..][|s| - 1..] == t[|s|..];
          SameTextCons(m, s, t[..|s|]);
          assert t[..|s|][1..] == t[1..][..|s| - 1];
        }
      }
    }
  }

  lemma {:induction false} PercentMatchesAll(m: Matcher, t: string)
    ensures Matches(m, "%", t)
  {
    if t != [] {
      PercentMatchesAll(m, t[1..]);
    }
  }

  /** What follows a leading % matches some suffix, and conversely. */
  lemma {:induction false} LeadingPercent(m: Matcher, p: string, t: string)
    ensures Matches(m, "%" + p, t) <==> exists k: nat :: k <= |t| && Matches(m, p, t[k..])
    decreases |t|
  {
    var q := "%" + p;
    assert q[1..] == p;
    assert t[0..] == t;
    if t != [] {
      LeadingPercent(m, p, t[1..]);
      if Matches(m, q, t[1..]) {
        var k: nat :| k <= |t[1..]| && Matches(m, p, t[1..][k..]);
        assert t[1..][k..] == t[k + 1..];
      }
      if k: nat :| k <= |t| && Matches(m, p, t[k..]) {
        if k > 0 {
          assert t[1..][k - 1..] == t[k..];
        }
      }
    }
  }

  /** The pattern bound for a substring match. */
  function SubstringPattern(extra: string, s: string): string {
    "%" + Escaped(extra, s) + "%"
  }

  /** '%' + EscapeLike(s) + '%' matches a text exactly when s occurs in it: no character
      of s acts as a wildcard, whatever the dialect adds. */
  lemma {:induction false} SubstringExact(m: Matcher, s: string, t: string)
    ensures Matches(m, SubstringPattern(m.extra, s), t) <==> Occurs(m, s, t)
  {
    var tail := Escaped(m.extra, s) + "%";
    assert SubstringPattern(m.extra, s) == "%" + tail;
    LeadingPercent(m, tail, t);
    forall k: nat | k <= |t|
      ensures Matches(m, tail, t[k..]) <==> OccursAt(m, s, t, k)
    {
      EscapedPrefix(m, s, "%", t[k..]);
      if k + |s| <= |t| {
        PercentMatchesAll(m, t[k..][|s|..]);
        assert t[k..][..|s|] == t[k..k + |s|];
      }
    }
    if Occurs(m, s, t) {
      var k: nat :| OccursAt(m, s, t, k);
      assert Matches(m, tail, t[k..]);
    }
  }

  /** Without the surrounding %, the escaped text is an equality test. */
  lemma {:induction false} EscapedExact(m: Matcher, s: string, t: string)
    ensures Matches(m, Escaped(m.extra, s), t) <==> SameText(m, s, t)
  {
    EscapedPrefix(m, s, [], t);
    assert Escaped(m.extra, s) + [] == Escaped(m.extra, s);
    if |s| <= |t| && t[|s|..] == [] {
      assert t[..|s|] == t;
    }
  }

  // ----- the escape character is only ever written before what needs it -----

  /** Every escape character of p is followed by a special character (Oracle rejects
      any other use), and no other special character stands alone. */
  predicate WellEscaped(extra: string, p: string) {
    if p == [] then true
    else if p[0] == ESCAPE then |p| > 1 && Special(extra, p[1]) && WellEscaped(extra, p[2..])
    else !Special(extra, p[0]) && WellEscaped(extra, p[1..])
  }

  /** Removing the escapes. */
  function Unescaped(p: string): string {
    if p == [] then []
    else if p[0] == ESCAPE && |p| > 1 then [p[1]] + Unescaped(p[2..])
    else [p[0]] + Unescaped(p[1..])
  }

  lemma {:induction false} EscapedIsWellEscaped(extra: string, s: string)
    ensures WellEscaped(extra, Escaped(extra, s))
    ensures Unescaped(Escaped(extra, s)) == s
  {
    if s != [] {
      var e := Escaped(extra, s);
      EscapedIsWellEscaped(extra, s[1..]);
      if Special(extra, s[0]) {
        assert e[2..] == Escaped(extra, s[1..]);
      } else {
        assert e[1..] == Escaped(extra, s[1..]);
      }
    }
  }

  /** The well-escaped patterns are exactly the escapings. */
  lemma {:induction false} WellEscapedIsEscaped(extra: string, p: string)
    requires WellEscaped(extra, p)
    ensures p == Escaped(extra, Unescaped(p))
  {
    if p != [] {
      if p[0] == ESCAPE {
        WellEscapedIsEscaped(extra, p[2..]);
        assert Unescaped(p)[1..] == Unescaped(p[2..]);
      } else {
        WellEscapedIsEscaped(extra, p[1..]);
        assert Unescaped(p)[1..] == Unescaped(p[1..]);
      }
    }
  }
}
