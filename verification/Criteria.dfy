/**
  The query compiler: a predicate list is written as the text of a WHERE clause and its
  bound parameters. The builder is the mutable object of the source; the text it writes
  is given by Clause.
 */
module Criteria {
  import opened SqlText
  import Like

  // ----- column references -----

  predicate Letter(c: char) {
    'a' <= c <= 'z' || 'A' <= c <= 'Z'
  }

  predicate NameChar(c: char) {
    Letter(c) || '0' <= c <= '9' || c == '_' || c == '$'
  }

  function NameRun(s: string): (n: nat)
    ensures n <= |s|
  {
    if s != [] && NameChar(s[0]) then 1 + NameRun(s[1..]) else 0
  }

  function QuotedRun(s: string): (n: nat)
    ensures n <= |s|
  {
    if s != [] && (NameChar(s[0]) || s[0] == ' ') then 1 + QuotedRun(s[1..]) else 0
  }

  /** Length of the name segment s starts with, plain or quoted; 0 when there is none. */
  function Segment(s: string): (n: nat)
    ensures n <= |s|
  {
    if s == [] then 0
    else if Letter(s[0]) || s[0] == '_' then 1 + NameRun(s[1..])
    else if s[0] == '"' || s[0] == '`' || s[0] == '[' then
      var close := if s[0] == '[' then ']' else s[0];
      var k := QuotedRun(s[1..]);
      if k > 0 && 1 + k < |s| && s[1 + k] == close then k + 2 else 0
    else 0
  }

  predicate Segments(s: string, most: nat) {
    var n := Segment(s);
    n > 0 && (n == |s| || (most > 1 && s[n] == '.' && Segments(s[n + 1..], most - 1)))
  }

  /** A column reference such as col, t.col, "Col" or schema.t.col. */
  predicate IsIdentifier(s: string) {
    Segments(s, 3)
  }

  // ----- predicates -----

  datatype Operator =
    | Compare(op: CmpOp)
    | Check(test: Test)
    | In | NotIn | Between
    | Contains | NotContains       // case-insensitive where the dialect can
    | Likes | NotLikes             // case-sensitive
    | Overlaps

  datatype Error = InvalidField(field: string) | InvalidValue(field: string)

  /** One entry of a predicate list: a connector, a parenthesised group, a full-text
      match, a condition on a field, or a predicate its constructor found invalid. */
  datatype Predicate =
    | Connector(or: bool)
    | Group(children: seq<Predicate>)
    | Match(search: string)
    | Cond(field: string, raw: bool, operator: Operator, value: Value, literal: bool)
    | Invalid(error: Error)

  /** What a dialect offers: array parameters, a case-insensitive LIKE, extra LIKE
      wildcards, and the strings a full-text search binds (None: nothing searchable). */
  datatype Dialect = Dialect(arrays: bool, foldLike: bool, extra: string,
                             search: string -> Option<seq<Value>>)

  predicate IsLike(op: Operator) {
    op.Contains? || op.NotContains? || op.Likes? || op.NotLikes?
  }

  // ----- what is rejected -----

  function First(a: Option<Error>, b: Option<Error>): Option<Error> {
    if a.Some? then a else b
  }

  /** The error a condition is rejected with. */
  function ConditionError(d: Dialect, p: Predicate): Option<Error>
    requires p.Cond?
  {
    if !p.raw && !IsIdentifier(p.field) then Some(InvalidField(p.field))
    else if p.operator.Between? && !(p.value.List? && |p.value.items| == 2) then Some(InvalidValue(p.field))
    else if p.operator.Overlaps? && !(d.arrays && p.value.List? && p.value.typed) then Some(InvalidValue(p.field))
    else if IsLike(p.operator) && p.literal && !p.value.Str? then Some(InvalidValue(p.field))
    else None
  }

  /** The first error of p, in the order it is written. */
  function PredicateError(d: Dialect, p: Predicate): Option<Error> {
    match p
    case Connector(_) => None
    case Group(children) => ClauseError(d, children)
    case Match(s) => if d.search(s).None? then Some(InvalidValue(s)) else None
    case Cond(_, _, _, _, _) => ConditionError(d, p)
    case Invalid(e) => Some(e)
  }

  function ClauseError(d: Dialect, ps: seq<Predicate>): Option<Error> {
    if ps == [] then None
    else First(PredicateError(d, ps[0]), ClauseError(d, ps[1..]))
  }

  // ----- what is bound -----

  /** The pattern a LIKE condition binds. */
  function LikePattern(d: Dialect, p: Predicate): Value
    requires p.Cond?
  {
    if p.literal && p.value.Str? then Str(Like.SubstringPattern(d.extra, p.value.s)) else p.value
  }

  predicate BindsArray(d: Dialect, v: Value) {
    d.arrays && v.List? && v.typed
  }

  function ConditionParams(d: Dialect, p: Predicate): seq<Value>
    requires p.Cond?
  {
    match p.operator
    case Compare(_) => [p.value]
    case Check(_) => []
    case Between => if p.value.List? then p.value.items else []
    case Overlaps => if p.value.List? && p.value.items == [] then [] else [p.value]
    case In | NotIn =>
      if !p.value.List? then [p.value]
      else if p.value.items == [] then []
      else if BindsArray(d, p.value) then [p.value]
      else p.value.items
    case _ => [LikePattern(d, p)]
  }

  function PredicateParams(d: Dialect, p: Predicate): seq<Value> {
    match p
    case Connector(_) => []
    case Group(children) => ClauseParams(d, children)
    case Match(s) => if d.search(s).Some? then d.search(s).value else []
    case Cond(_, _, _, _, _) => ConditionParams(d, p)
    case Invalid(_) => []
  }

  function ClauseParams(d: Dialect, ps: seq<Predicate>): seq<Value> {
    if ps == [] then [] else PredicateParams(d, ps[0]) + ClauseParams(d, ps[1..])
  }

  // ----- what is written -----

  /** k placeholders after n, separated by commas. */
  function ParamList(n: nat, k: nat): seq<Token>
    decreases k
  {
    if k == 0 then []
    else if k == 1 then [Param(n + 1)]
    else [Param(n + 1), Comma] + ParamList(n + 1, k - 1)
  }

  function EscapeText(literal: bool): seq<Token> {
    if literal then [EscapeKw] else []
  }

  const NONE: seq<Token> := [Int(1), Cmp(Eq), Int(0)]
  const EVERY: seq<Token> := [Int(1), Cmp(Eq), Int(1)]

  /** The text of a condition after n bound parameters. */
  function Condition(d: Dialect, p: Predicate, n: nat): seq<Token>
    requires p.Cond?
  {
    var f := Col(p.field);
    match p.operator
    case Compare(op) => [f, Cmp(op), Param(n + 1)]
    case Check(t) => [f, Is(t)]
    case Between => [f, BetweenKw, Param(n + 1), AndKw, Param(n + 2)]
    case Overlaps => if p.value.List? && p.value.items == [] then NONE else [f, OverlapKw, Param(n + 1)]
    case In | NotIn =>
      if !p.value.List? then [f, InKw(p.operator.NotIn?), LParen, Param(n + 1), RParen]
      else if p.value.items == [] then (if p.operator.NotIn? then EVERY else NONE)
      else if BindsArray(d, p.value) then
        if p.operator.NotIn? then [f, Cmp(Ne), AllKw, LParen, Param(n + 1), RParen]
        else [f, Cmp(Eq), AnyKw, LParen, Param(n + 1), RParen]
      else [f, InKw(p.operator.NotIn?), LParen] + ParamList(n, |p.value.items|) + [RParen]
    case Contains => [f, LikeKw(false, d.foldLike), Param(n + 1)] + EscapeText(p.literal)
    case NotContains => [f, LikeKw(true, d.foldLike), Param(n + 1)] + EscapeText(p.literal)
    case Likes => [f, LikeKw(false, false), Param(n + 1)] + EscapeText(p.literal)
    case NotLikes => [f, LikeKw(true, false), Param(n + 1)] + EscapeText(p.literal)
  }

  function PredicateText(d: Dialect, p: Predicate, n: nat): seq<Token>
    decreases p
  {
    match p
    case Connector(or) => [if or then OrKw else AndKw]
    case Group(children) => [LParen] + Clause(d, true, children, n) + [RParen]
    case Match(s) => [Text(s, n + 1, |PredicateParams(d, p)|)]
    case Cond(_, _, _, _, _) => Condition(d, p, n)
    case Invalid(_) => []
  }

  /** The AND written between two conditions that have no connector between them. */
  function Joint(open: bool, p: Predicate): seq<Token> {
    if open || p.Connector? then [] else [AndKw]
  }

  /** The text of the entries ps of a list; open when no condition stands right before,
      so that none of AND has to be inserted. */
  function Clause(d: Dialect, open: bool, ps: seq<Predicate>, n: nat): seq<Token>
    decreases ps
  {
    if ps == [] then []
    else
      Joint(open, ps[0]) + PredicateText(d, ps[0], n)
      + Clause(d, ps[0].Connector?, ps[1..], n + |PredicateParams(d, ps[0])|)
  }

  // ----- the builder -----

  class Builder {
    const dialect: Dialect
    var params: seq<Value>
    var sb: seq<Token>
    var err: Option<Error>

    constructor (d: Dialect, args: seq<Value>)
      ensures dialect == d && params == args && sb == [] && err == None
    {
      dialect, params, sb, err := d, args, [], None;
    }

    /** Only the first error is kept. */
    method Fail(e: Error)
      modifies this`err
      ensures err == First(old(err), Some(e))
    {
      if err == None {
        err := Some(e);
      }
    }

    method CheckField(field: string, raw: bool) returns (ok: bool)
      modifies this`err
      ensures ok == (raw || IsIdentifier(field))
      ensures err == if ok then old(err) else First(old(err), Some(InvalidField(field)))
    {
      ok := raw || IsIdentifier(field);
      if !ok {
        Fail(InvalidField(field));
      }
    }

    method NextParam(v: Value) returns (t: Token)
      modifies this`params
      ensures params == old(params) + [v] && t == Param(|params|)
    {
      params := params + [v];
      t := Param(|params|);
    }

    method Write(parts: seq<Token>)
      modifies this`sb
      ensures sb == old(sb) + parts
    {
      sb := sb + parts;
    }

    method LikeParam(p: Predicate) returns (t: seq<Token>)
      requires p.Cond?
      modifies this`params, this`err
      ensures err == First(old(err), if p.literal && !p.value.Str? then Some(InvalidValue(p.field)) else None)
      ensures err.None? ==> params == old(params) + [LikePattern(dialect, p)] && t == [Param(|params|)]
    {
      t := [];
      if !p.literal {
        var t1 := NextParam(p.value);
        t := [t1];
      } else if !p.value.Str? {
        Fail(InvalidValue(p.field));
      } else {
        var escaped := Like.EscapeLike(dialect.extra, p.value.s);
        var t1 := NextParam(Str("%" + escaped + "%"));
        t := [t1];
      }
    }

    method WriteLike(p: Predicate, negate: bool, fold: bool)
      requires p.Cond?
      modifies this
      ensures err == First(old(err), if p.literal && !p.value.Str? then Some(InvalidValue(p.field)) else None)
      ensures err.None? ==>
                && params == old(params) + [LikePattern(dialect, p)]
                && sb == old(sb)
                      + ([Col(p.field), LikeKw(negate, fold), Param(|old(params)| + 1)] + EscapeText(p.literal))
    {
      var t := LikeParam(p);
      Write([Col(p.field), LikeKw(negate, fold)] + t);
      if p.literal {
        Write([EscapeKw]);
      }
    }

    method WriteOverlap(p: Predicate)
      requires p.Cond? && p.operator.Overlaps? && (p.raw || IsIdentifier(p.field))
      modifies this
      ensures err == First(old(err), ConditionError(dialect, p))
      ensures err.None? ==> params == old(params) + ConditionParams(dialect, p)
                            && sb == old(sb) + Condition(dialect, p, |old(params)|)
    {
      if !dialect.arrays || !p.value.List? || !p.value.typed {
        Fail(InvalidValue(p.field));
      } else if p.value.items == [] {
        Write(NONE);
      } else {
        var t := NextParam(p.value);
        Write([Col(p.field), OverlapKw, t]);
      }
    }

    method WriteMembership(p: Predicate)
      requires p.Cond? && (p.operator.In? || p.operator.NotIn?) && (p.raw || IsIdentifier(p.field))
      modifies this`params, this`sb
      ensures params == old(params) + ConditionParams(dialect, p)
      ensures sb == old(sb) + Condition(dialect, p, |old(params)|)
    {
      hide ParamList;
      var f, negate := Col(p.field), p.operator.NotIn?;
      if !p.value.List? {
        var t := NextParam(p.value);
        Write([f, InKw(negate), LParen, t, RParen]);
        return;
      }
      var values := p.value.items;
      if values == [] {
        Write(if negate then EVERY else NONE);
        return;
      }
      if dialect.arrays && p.value.typed {
        var t := NextParam(p.value);
        Write(if negate then [f, Cmp(Ne), AllKw, LParen, t, RParen] else [f, Cmp(Eq), AnyKw, LParen, t, RParen]);
        return;
      }
      Write([f, InKw(negate), LParen]);
      WriteParams(values);
      Write([RParen]);
    }

    /** One placeholder for each value, with commas between. */
    method WriteParams(values: seq<Value>)
      modifies this`params, this`sb
      ensures params == old(params) + values
      ensures sb == old(sb) + ParamList(|old(params)|, |values|)
    {
      ghost var n := |old(params)|;
      for i := 0 to |values|
        invariant params == old(params) + values[..i]
        invariant sb == old(sb) + ParamList(n, i)
      {
        if i > 0 {
          Write([Comma]);
        }
        var t := NextParam(values[i]);
        Write([t]);
        ParamListSnoc(n, i);
      }
    }

    method WritePredicate(p: Predicate)
      requires !p.Connector?
      modifies this
      ensures err == First(old(err), PredicateError(dialect, p))
      ensures err.None? ==>
                && params == old(params) + PredicateParams(dialect, p)
                && sb == old(sb) + PredicateText(dialect, p, |old(params)|)
      decreases p, 0
    {
      match p {
        case Invalid(e) =>
          Fail(e);
        case Group(children) =>
          Write([LParen]);
          WriteClause(children);
          Write([RParen]);
        case Match(s) =>
          var strings := dialect.search(s);
          if strings.None? {
            Fail(InvalidValue(s));
          } else {
            Write([Text(s, |params| + 1, |strings.value|)]);
            params := params + strings.value;
          }
        case Cond(field, raw, operator, value, literal) =>
          var ok := CheckField(field, raw);
          if ok {
            WriteCondition(p);
          }
      }
    }

    method WriteCondition(p: Predicate)
      requires p.Cond? && (p.raw || IsIdentifier(p.field))
      modifies this
      ensures err == First(old(err), ConditionError(dialect, p))
      ensures err.None? ==> params == old(params) + ConditionParams(dialect, p)
                            && sb == old(sb) + Condition(dialect, p, |old(params)|)
    {
      match p.operator {
        case Check(t) =>
          Write([Col(p.field), Is(t)]);
        case Overlaps =>
          WriteOverlap(p);
        case In => WriteMembership(p);
        case NotIn => WriteMembership(p);
        case Between =>
          if !p.value.List? || |p.value.items| != 2 {
            Fail(InvalidValue(p.field));
          } else {
            var from := NextParam(p.value.items[0]);
            var to := NextParam(p.value.items[1]);
            Write([Col(p.field), BetweenKw, from, AndKw, to]);
          }
        case Contains => WriteLike(p, false, dialect.foldLike);
        case NotContains => WriteLike(p, true, dialect.foldLike);
        case Likes => WriteLike(p, false, false);
        case NotLikes => WriteLike(p, true, false);
        case Compare(op) =>
          var t := NextParam(p.value);
          Write([Col(p.field), Cmp(op), t]);
      }
    }

    /** Connectors are written as they stand; two conditions with no connector between
        them are joined by AND. */
    method WriteClause(ps: seq<Predicate>)
      modifies this
      ensures err == First(old(err), ClauseError(dialect, ps))
      ensures err.None? ==>
                && params == old(params) + ClauseParams(dialect, ps)
                && sb == old(sb) + Clause(dialect, true, ps, |old(params)|)
      decreases ps, 0
    {
      hide PredicateText, PredicateParams, PredicateError, Clause, ClauseParams, ClauseError, Joint;
      assert ps[0..] == ps;
      for i := 0 to |ps|
        invariant First(err, ClauseError(dialect, ps[i..])) == First(old(err), ClauseError(dialect, ps))
        invariant err.None? ==> params + ClauseParams(dialect, ps[i..]) == old(params) + ClauseParams(dialect, ps)
        invariant err.None? ==> sb + Clause(dialect, i == 0 || ps[i - 1].Connector?, ps[i..], |params|)
                                == old(sb) + Clause(dialect, true, ps, |old(params)|)
      {
        ghost var rest := ps[i + 1..];
        ghost var before, bound := sb, params;
        ClauseAt(dialect, i == 0 || ps[i - 1].Connector?, ps, i, |params|);
        WriteEntry(ps[i], i == 0 || ps[i - 1].Connector?);
        if err.None? {
          Regroup(bound, PredicateParams(dialect, ps[i]), ClauseParams(dialect, rest));
          Regroup(before, Joint(i == 0 || ps[i - 1].Connector?, ps[i]) + PredicateText(dialect, ps[i], |bound|),
                  Clause(dialect, ps[i].Connector?, rest, |params|));
        }
      }
      assert ps[|ps|..] == [];
      ClauseEnd(dialect, ps == [] || ps[|ps| - 1].Connector?, |params|);
    }

    /** One entry of the list; open when the entry before it is not a condition. */
    method WriteEntry(p: Predicate, open: bool)
      modifies this
      ensures err == First(old(err), PredicateError(dialect, p))
      ensures err.None? ==>
                && params == old(params) + PredicateParams(dialect, p)
                && sb == old(sb) + (Joint(open, p) + PredicateText(dialect, p, |old(params)|))
      decreases p, 1
    {
      hide PredicateText, PredicateParams, PredicateError;
      if p.Connector? {
        ConnectorText(dialect, p, |params|);
        Write([if p.or then OrKw else AndKw]);
      } else {
        if !open {
          Write([AndKw]);
        }
        WritePredicate(p);
        if err.None? {
          Regroup(old(sb), Joint(open, p), PredicateText(dialect, p, |old(params)|));
        }
      }
    }
  }

  lemma {:induction false} ConnectorText(d: Dialect, p: Predicate, n: nat)
    requires p.Connector?
    ensures PredicateText(d, p, n) == [if p.or then OrKw else AndKw] && PredicateParams(d, p) == []
            && PredicateError(d, p).None?
  {
  }

  /** A list from its i-th entry on. */
  lemma {:induction false} ClauseAt(d: Dialect, open: bool, ps: seq<Predicate>, i: nat, n: nat)
    requires i < |ps|
    ensures Clause(d, open, ps[i..], n)
         == Joint(open, ps[i]) + PredicateText(d, ps[i], n)
          + Clause(d, ps[i].Connector?, ps[i + 1..], n + |PredicateParams(d, ps[i])|)
    ensures ClauseParams(d, ps[i..]) == PredicateParams(d, ps[i]) + ClauseParams(d, ps[i + 1..])
    ensures ClauseError(d, ps[i..]) == First(PredicateError(d, ps[i]), ClauseError(d, ps[i + 1..]))
  {
    hide PredicateText, PredicateParams, PredicateError;
    assert ps[i..][1..] == ps[i + 1..];
  }

  lemma {:induction false} ClauseEnd(d: Dialect, open: bool, n: nat)
    ensures Clause(d, open, [], n) == [] && ClauseParams(d, []) == [] && ClauseError(d, []) == None
  {
  }

  lemma {:induction false} Regroup<T>(a: seq<T>, b: seq<T>, c: seq<T>)
    ensures a + b + c == a + (b + c)
  {
  }

  lemma {:induction false} ParamListSnoc(n: nat, k: nat)
    ensures ParamList(n, k + 1) == ParamList(n, k) + (if k > 0 then [Comma] else []) + [Param(n + k + 1)]
    decreases k
  {
    if k > 1 {
      ParamListSnoc(n + 1, k - 1);
    }
  }

  datatype Built = Rejected(error: Error) | Accepted(text: seq<Token>, params: seq<Value>)

  /** Placeholders are numbered after args, which come back unchanged in front of the new
      parameters; the first error rejects the whole list. */
  method BuildClauseAfter(args: seq<Value>, ps: seq<Predicate>, d: Dialect) returns (r: Built)
    ensures r == BuiltAfter(args, ps, d)
  {
    var b := new Builder(d, args);
    b.WriteClause(ps);
    r := if b.err.Some? then Rejected(b.err.value) else Accepted(b.sb, b.params);
  }

  function BuiltAfter(args: seq<Value>, ps: seq<Predicate>, d: Dialect): Built {
    var e := ClauseError(d, ps);
    if e.Some? then Rejected(e.value)
    else Accepted(Clause(d, true, ps, |args|), args + ClauseParams(d, ps))
  }
}
