/**
  The layout of an SQL statement. The formatter writes tokens and breaks lines; what it
  has written is kept as the pieces it consists of.
 */
module SqlFormat {
  import opened SqlTokens

  /** What was written: a token, or whitespace. */
  datatype Piece = Tok(t: Token) | Gap(g: string)

  function Flat(ps: seq<Piece>): string {
    if ps == [] then [] else (if ps[0].Tok? then ps[0].t.s else ps[0].g) + Flat(ps[1..])
  }

  /** The tokens among the pieces. */
  function Written(ps: seq<Piece>): seq<Token> {
    if ps == [] then [] else if ps[0].Tok? then [ps[0].t] + Written(ps[1..]) else Written(ps[1..])
  }

  lemma {:induction false} FlatConcat(a: seq<Piece>, b: seq<Piece>)
    ensures Flat(a + b) == Flat(a) + Flat(b)
  {
    if a == [] {
      assert a + b == b;
    } else {
      assert (a + b)[1..] == a[1..] + b;
      FlatConcat(a[1..], b);
    }
  }

  lemma {:induction false} WrittenConcat(a: seq<Piece>, b: seq<Piece>)
    ensures Written(a + b) == Written(a) + Written(b)
  {
    if a == [] {
      assert a + b == b;
    } else {
      assert (a + b)[1..] == a[1..] + b;
      WrittenConcat(a[1..], b);
    }
  }

  // ----- keywords -----

  const CLAUSES: seq<seq<string>> :=
    [["LEFT", "OUTER", "JOIN"], ["LEFT", "JOIN", "LATERAL"], ["INSERT", "INTO"], ["DELETE", "FROM"],
     ["GROUP", "BY"], ["ORDER", "BY"], ["UNION", "ALL"], ["ON", "CONFLICT"],
     ["LEFT", "JOIN"], ["RIGHT", "JOIN"], ["INNER", "JOIN"], ["FULL", "JOIN"], ["CROSS", "JOIN"],
     ["SELECT"], ["FROM"], ["WHERE"], ["HAVING"], ["LIMIT"], ["UNION"], ["RETURNING"],
     ["VALUES"], ["SET"], ["UPDATE"], ["WITH"], ["JOIN"]]

  const KEYWORDS: set<string> :=
    {"AND", "OR", "NOT", "IN", "IS", "NULL", "TRUE", "FALSE", "AS", "ON", "BETWEEN", "LIKE", "ILIKE", "ESCAPE", "ANY",
     "ALL", "ASC", "DESC", "NULLS", "FIRST", "LAST", "DISTINCT", "CASE", "WHEN", "THEN", "ELSE", "END", "EXISTS",
     "COALESCE", "COUNT",
     "INTO", "BY", "LATERAL", "OUTER", "INNER", "LEFT", "RIGHT", "FULL", "CROSS", "DO", "NOTHING", "CONFLICT", "OFFSET"}

  predicate IsKeyword(s: string) {
    s in KEYWORDS
  }

  predicate IsUpperKeyword(s: string) {
    IsKeyword(s) && s != "COUNT" && s != "COALESCE" && s != "ANY" && s != "EXISTS"
  }

  /** The token is the word w, in any case. */
  predicate Is(u: Runes, t: Token, w: string) {
    t.kind == Kind.Word && u.sameFold(t.s, w)
  }

  /** The words of kw stand at i. */
  predicate StandsAt(u: Runes, ts: seq<Token>, i: nat, kw: seq<string>) {
    i + |kw| <= |ts| && forall k | 0 <= k < |kw| :: Is(u, ts[i + k], kw[k])
  }

  /** The first of kws that stands at i; [] when none does. */
  function FirstStanding(u: Runes, ts: seq<Token>, i: nat, kws: seq<seq<string>>): (kw: seq<string>)
    ensures kw != [] ==> kw in kws && StandsAt(u, ts, i, kw) && i + |kw| <= |ts|
  {
    if kws == [] then []
    else if kws[0] != [] && StandsAt(u, ts, i, kws[0]) then kws[0]
    else FirstStanding(u, ts, i, kws[1..])
  }

  function ClauseAt(u: Runes, ts: seq<Token>, i: nat): (kw: seq<string>)
    ensures kw != [] ==> kw in CLAUSES && StandsAt(u, ts, i, kw) && i + |kw| <= |ts|
  {
    FirstStanding(u, ts, i, CLAUSES)
  }

  predicate StartsSubquery(u: Runes, ts: seq<Token>, i: nat) {
    i < |ts| && (Is(u, ts[i], "SELECT") || Is(u, ts[i], "WITH"))
  }

  function Joined(kw: seq<string>): string {
    if kw == [] then "" else if |kw| == 1 then kw[0] else kw[0] + " " + Joined(kw[1..])
  }

  // ----- writing -----

  /** The formatter between two tokens. */
  datatype State = State(out: seq<Piece>, last: Token, lastKeyword: bool, lineIndent: nat)

  const NEWLINE := Token("\n", Operator)
  const START := State([], Token("", Kind.Word), false, 0)

  function Indent(n: nat): (r: string)
    ensures |r| == 2 * n && forall i | 0 <= i < |r| :: r[i] == ' '
  {
    if n == 0 then "" else "  " + Indent(n - 1)
  }

  function Newline(st: State, indent: nat): State {
    st.(out := st.out + [Gap("\n" + Indent(indent))], last := NEWLINE, lineIndent := indent)
  }

  /** A blank goes between prev and t. */
  predicate Spaced(st: State, t: Token) {
    var prev := st.last;
    && Flat(st.out) != [] && prev.s != "\n" && prev.kind != Open && t.kind != Close && t.kind != Comma
    && t.s != "::" && prev.s != "::"
    && !(t.kind == Open && prev.kind == Kind.Word && !st.lastKeyword && !IsUpperKeyword(prev.s))
  }

  function Write(u: Runes, st: State, t: Token, keyword: bool): State {
    State(st.out + (if Spaced(st, t) then [Gap(" ")] else []) + [Tok(t)], t,
          (keyword && IsUpperKeyword(u.upper(t.s))) || (keyword && !IsKeyword(u.upper(t.s))), st.lineIndent)
  }

  function WriteAll(u: Runes, st: State, ts: seq<Token>): State
    decreases |ts|
  {
    if ts == [] then st else WriteAll(u, Write(u, st, ts[0], true), ts[1..])
  }

  /** The line break before a clause. */
  function BeforeClause(st: State, kw: seq<string>, indent: nat): State
    requires kw != []
  {
    var w := kw[|kw| - 1];
    if w == "JOIN" || w == "LATERAL" then Newline(st, indent + 1)
    else if Flat(st.out) != [] && st.last.s != "\n" then Newline(st, indent)
    else st
  }

  function WriteClause(u: Runes, st: State, ts: seq<Token>, kw: seq<string>, indent: nat): State
    requires kw != []
  {
    var written := WriteAll(u, BeforeClause(st, kw, indent), ts);
    if u.upper(Joined(kw)) == "SELECT" then Newline(written, indent + 1) else written
  }

  /** An AND or OR that starts a line. */
  predicate BreaksLine(u: Runes, t: Token, clause: string, between: bool) {
    var upper := u.upper(t.s);
    && t.kind == Kind.Word && (upper == "AND" || upper == "OR") && (clause == "WHERE" || clause == "HAVING")
    && !(upper == "AND" && between)
  }

  function StillBetween(u: Runes, t: Token, clause: string, between: bool): bool {
    var upper := u.upper(t.s);
    if upper == "BETWEEN" then true
    else if t.kind == Kind.Word && upper == "AND" && (clause == "WHERE" || clause == "HAVING") then false
    else between
  }

  function WritePlain(u: Runes, st: State, t: Token, indent: nat, inline: bool, clause: string, between: bool): State {
    var broken := if !inline && BreaksLine(u, t, clause, between) then Newline(st, indent + 1) else st;
    Write(u, broken, t, t.kind == Kind.Word && IsKeyword(u.upper(t.s)))
  }

  /** Where a level stands: what was written, the next token, the clause it is in and
      whether a BETWEEN waits for its AND. */
  datatype Cursor = Cursor(st: State, i: nat, clause: string, between: bool)

  /** The level is at its closing parenthesis, or out of tokens. */
  predicate AtEnd(ts: seq<Token>, i: nat) {
    i >= |ts| || ts[i].kind == Close
  }

  /** One clause, or one other token, further. */
  function AdvanceWord(u: Runes, ts: seq<Token>, c: Cursor, indent: nat, inline: bool): (r: Cursor)
    requires c.i < |ts|
    ensures r.i > c.i
  {
    var t, kw := ts[c.i], ClauseAt(u, ts, c.i);
    if !inline && kw != [] then
      c.(st := WriteClause(u, c.st, ts[c.i..c.i + |kw|], kw, indent), i := c.i + |kw|, clause := u.upper(Joined(kw)))
    else
      c.(st := WritePlain(u, c.st, t, indent, inline, c.clause, c.between), i := c.i + 1,
         between := if inline then c.between else StillBetween(u, t, c.clause, c.between))
  }

  /** One token, clause or parenthesis further. */
  function Advance(u: Runes, ts: seq<Token>, c: Cursor, indent: nat, inline: bool): (r: Cursor)
    requires !AtEnd(ts, c.i)
    ensures r.i > c.i
    decreases |ts| - c.i, 1
  {
    var t := ts[c.i];
    if t.kind == Open then
      var (inner, j) := Parenthesis(u, ts, c.st, c.i, indent);
      c.(st := if j < |ts| then Write(u, inner, ts[j], false) else inner, i := j + 1)
    else if t.kind == Comma then
      var written := Write(u, c.st, t, false);
      c.(st := if !inline && c.clause == "SELECT" then Newline(written, indent + 1) else written, i := c.i + 1)
    else AdvanceWord(u, ts, c, indent, inline)
  }

  /** To the end of the level. */
  function Level(u: Runes, ts: seq<Token>, c: Cursor, indent: nat, inline: bool): (r: Cursor)
    ensures r.i >= c.i && AtEnd(ts, r.i)
    decreases |ts| - c.i, 2
  {
    if AtEnd(ts, c.i) then c else Level(u, ts, Advance(u, ts, c, indent, inline), indent, inline)
  }

  /** The opening parenthesis at i and what is inside: a subquery on lines of its own, or
      arguments on this one. */
  function Parenthesis(u: Runes, ts: seq<Token>, st: State, i: nat, indent: nat): (r: (State, nat))
    requires i < |ts|
    ensures r.1 > i && AtEnd(ts, r.1)
    decreases |ts| - i, 0
  {
    var begun := Write(u, st, ts[i], false);
    if StartsSubquery(u, ts, i + 1) then
      var outer := st.lineIndent;
      var inner := Level(u, ts, Cursor(Newline(begun, outer + 1), i + 1, "", false), outer + 1, false);
      (Newline(inner.st, outer), inner.i)
    else
      var inner := Level(u, ts, Cursor(begun, i + 1, "", false), indent, true);
      (inner.st, inner.i)
  }

  /** Every token; a closing parenthesis without an opening one is written too. */
  function All(u: Runes, ts: seq<Token>, st: State, i: nat): State
    decreases |ts| - i
  {
    var level := Level(u, ts, Cursor(st, i, "", false), 0, false);
    if level.i < |ts| then All(u, ts, Write(u, level.st, ts[level.i], false), level.i + 1) else level.st
  }

  // ----- the formatter -----

  method MatchAt(u: Runes, ts: seq<Token>, i: nat, kw: seq<string>) returns (ok: bool)
    ensures ok <==> StandsAt(u, ts, i, kw)
  {
    hide Is;
    if i + |kw| > |ts| {
      return false;
    }
    for k := 0 to |kw|
      invariant forall j | 0 <= j < k :: Is(u, ts[i + j], kw[j])
    {
      if !Is(u, ts[i + k], kw[k]) {
        return false;
      }
    }
    return true;
  }

  method FindStanding(u: Runes, ts: seq<Token>, i: nat, kws: seq<seq<string>>) returns (kw: seq<string>)
    ensures kw == FirstStanding(u, ts, i, kws)
  {
    hide StandsAt;
    for n := 0 to |kws|
      invariant FirstStanding(u, ts, i, kws[n..]) == FirstStanding(u, ts, i, kws)
    {
      kw := kws[n];
      assert kws[n..][0] == kw && kws[n..][1..] == kws[n + 1..];
      var ok := MatchAt(u, ts, i, kw);
      if kw != [] && ok {
        return kw;
      }
    }
    return [];
  }

  method FindClause(u: Runes, ts: seq<Token>, i: nat) returns (kw: seq<string>)
    ensures kw == ClauseAt(u, ts, i)
  {
    kw := FindStanding(u, ts, i, CLAUSES);
  }

  class Formatter {
    const u: Runes
    const toks: seq<Token>
    var b: string
    var last: Token
    var lastKeyword: bool
    var lineIndent: nat
    ghost var out: seq<Piece>   // what b consists of

    constructor (u: Runes, toks: seq<Token>)
      ensures this.u == u && this.toks == toks && Valid() && Now() == START
    {
      this.u, this.toks := u, toks;
      b, out := [], [];
      last, lastKeyword, lineIndent := START.last, false, 0;
    }

    ghost predicate Valid()
      reads this
    {
      b == Flat(out)
    }

    ghost function Now(): State
      reads this
    {
      State(out, last, lastKeyword, lineIndent)
    }

    /** Adds to the buffer. */
    method Append(p: Piece)
      requires Valid()
      modifies this`b, this`out
      ensures Valid() && out == old(out) + [p] && b == old(b) + (if p.Tok? then p.t.s else p.g)
    {
      FlatConcat(out, [p]);
      assert [p][1..] == [];
      b := b + (if p.Tok? then p.t.s else p.g);
      out := out + [p];
    }

    method BreakLine(indent: nat)
      requires Valid()
      modifies this
      ensures Valid() && Now() == Newline(old(Now()), indent)
      ensures |b| == |old(b)| + 1 + 2 * indent && old(b) <= b && b[|old(b)|] == '\n'
      ensures forall i | |old(b)| < i < |b| :: b[i] == ' '
    {
      Append(Gap("\n" + Indent(indent)));
      last := NEWLINE;
      lineIndent := indent;
    }

    method NeedsSpace(t: Token) returns (space: bool)
      requires Valid()
      ensures space == Spaced(Now(), t)
    {
      hide IsKeyword, IsUpperKeyword;
      var prev := last;
      space := |b| > 0 && prev.s != "\n" && prev.kind != Open && t.kind != Close && t.kind != Comma
               && t.s != "::" && prev.s != "::"
               && !(t.kind == Open && prev.kind == Kind.Word && !lastKeyword && !IsUpperKeyword(prev.s));
    }

    method Put(t: Token, keyword: bool)
      requires Valid()
      modifies this
      ensures Valid() && Now() == Write(u, old(Now()), t, keyword)
    {
      hide IsKeyword, IsUpperKeyword, Spaced, Flat;
      var space := NeedsSpace(t);
      if space {
        Append(Gap(" "));
      }
      Append(Tok(t));
      last := t;
      lastKeyword := (keyword && IsUpperKeyword(u.upper(t.s))) || (keyword && !IsKeyword(u.upper(t.s)));
    }

    method PutClause(i: nat, kw: seq<string>, indent: nat)
      requires Valid() && kw != [] && i + |kw| <= |toks|
      modifies this
      ensures Valid() && Now() == WriteClause(u, old(Now()), toks[i..i + |kw|], kw, indent)
    {
      hide IsKeyword, IsUpperKeyword, Spaced, Write;
      var w := kw[|kw| - 1];
      if w == "JOIN" || w == "LATERAL" {
        BreakLine(indent + 1);
      } else if |b| > 0 && last.s != "\n" {
        BreakLine(indent);
      }
      ghost var ts := toks[i..i + |kw|];
      ghost var st := Now();
      for k := 0 to |kw|
        invariant Valid()
        invariant WriteAll(u, Now(), ts[k..]) == WriteAll(u, st, ts)
      {
        assert ts[k..][0] == toks[i + k] && ts[k..][1..] == ts[k + 1..];
        Put(toks[i + k], true);
      }
      if u.upper(Joined(kw)) == "SELECT" {
        BreakLine(indent + 1);
      }
    }

    method PutPlain(t: Token, indent: nat, inline: bool, clause: string, between: bool)
      requires Valid()
      modifies this
      ensures Valid() && Now() == WritePlain(u, old(Now()), t, indent, inline, clause, between)
    {
      hide IsKeyword, IsUpperKeyword, Spaced, Write;
      if !inline && BreaksLine(u, t, clause, between) {
        BreakLine(indent + 1);
      }
      Put(t, t.kind == Kind.Word && IsKeyword(u.upper(t.s)));
    }

    method PutWord(i: nat, clause: string, between: bool, indent: nat, inline: bool)
        returns (j: nat, clause': string, between': bool)
      requires Valid() && i < |toks|
      modifies this
      ensures Valid() && Cursor(Now(), j, clause', between')
              == AdvanceWord(u, toks, Cursor(old(Now()), i, clause, between), indent, inline)
    {
      hide WriteClause, WritePlain, ClauseAt, StandsAt, StillBetween;
      j, clause', between' := i + 1, clause, between;
      var kw := FindClause(u, toks, i);
      if !inline && kw != [] {
        PutClause(i, kw, indent);
        clause' := u.upper(Joined(kw));
        j := i + |kw|;
      } else {
        PutPlain(toks[i], indent, inline, clause, between);
        between' := if inline then between else StillBetween(u, toks[i], clause, between);
      }
    }

    /** One token, clause or parenthesis. */
    method PutNext(i: nat, clause: string, between: bool, indent: nat, inline: bool)
        returns (j: nat, clause': string, between': bool)
      requires Valid() && !AtEnd(toks, i)
      modifies this
      ensures Valid() && Cursor(Now(), j, clause', between')
              == Advance(u, toks, Cursor(old(Now()), i, clause, between), indent, inline)
      decreases |toks| - i, 1
    {
      hide Write, Newline, WriteClause, WritePlain, AdvanceWord, Level, Parenthesis;
      j, clause', between' := i + 1, clause, between;
      var t := toks[i];
      if t.kind == Open {
        j := PutParenthesis(i, indent);
        if j < |toks| {
          Put(toks[j], false);
        }
        j := j + 1;
      } else if t.kind == Comma {
        Put(t, false);
        if !inline && clause == "SELECT" {
          BreakLine(indent + 1);
        }
      } else {
        j, clause', between' := PutWord(i, clause, between, indent, inline);
      }
    }

    method PutLevel(start: nat, indent: nat, inline: bool) returns (i: nat)
      requires Valid()
      modifies this
      ensures Valid()
      ensures var r := Level(u, toks, Cursor(old(Now()), start, "", false), indent, inline); Now() == r.st && i == r.i
      decreases |toks| - start, 2
    {
      hide Advance;
      i := start;
      var clause, between := "", false;
      while i < |toks|
        invariant Valid() && start <= i
        invariant Level(u, toks, Cursor(Now(), i, clause, between), indent, inline)
               == Level(u, toks, Cursor(old(Now()), start, "", false), indent, inline)
        decreases |toks| - i
      {
        if toks[i].kind == Close {
          return;
        }
        i, clause, between := PutNext(i, clause, between, indent, inline);
      }
    }

    method PutParenthesis(i: nat, indent: nat) returns (j: nat)
      requires Valid() && i < |toks|
      modifies this
      ensures Valid() && (Now(), j) == Parenthesis(u, toks, old(Now()), i, indent)
      decreases |toks| - i, 0
    {
      hide Write, Newline, StartsSubquery, Level;
      var outer := lineIndent;
      Put(toks[i], false);
      if StartsSubquery(u, toks, i + 1) {
        BreakLine(outer + 1);
        j := PutLevel(i + 1, outer + 1, false);
        BreakLine(outer);
      } else {
        j := PutLevel(i + 1, indent, true);
      }
    }

    method PutAll()
      requires Valid() && Now() == START
      modifies this
      ensures Valid() && Now() == All(u, toks, START, 0)
    {
      hide Write, Newline, Level;
      var i := PutLevel(0, 0, false);
      while i < |toks|
        invariant Valid()
        invariant (if i < |toks| then All(u, toks, Write(u, Now(), toks[i], false), i + 1) else Now())
                  == All(u, toks, START, 0)
        decreases |toks| - i
      {
        Put(toks[i], false);
        i := PutLevel(i + 1, 0, false);
      }
    }
  }
}
