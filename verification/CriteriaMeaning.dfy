/**
  What the compiled clause means. The meaning of a predicate list is defined on the list
  itself, with no reference to text: a disjunction of conjunctions, adjacent conditions
  being joined by AND and groups taken as units. The theorems say that the text written
  by the builder, read back with SQL's precedence on any row, has that meaning, and that
  it reads back at all exactly when connectors are well placed and no group is empty.
 */
module CriteriaMeaning {
  import opened SqlText
  import opened Criteria
  import Like

  // ----- meaning of a predicate list -----

  /** column contains the text s. */
  ghost function ContainsText(row: Row, column: string, fold: bool, s: string): Tri {
    match row.text(column)
    case None => Unknown
    case Some(t) => Of(Like.Occurs(row.matcher(fold), s, t))
  }

  /** A LIKE condition: substring when literal, the pattern as given otherwise. */
  ghost function LikeMeaning(row: Row, p: Predicate, fold: bool): Tri
    requires p.Cond?
  {
    if p.literal then (if p.value.Str? then ContainsText(row, p.field, fold, p.value.s) else Unknown)
    else row.pattern(fold, p.field, p.value)
  }

  ghost function ConditionMeaning(d: Dialect, row: Row, p: Predicate): Tri
    requires p.Cond?
  {
    match p.operator
    case Compare(op) => row.compare(op, p.field, p.value)
    case Check(t) => row.test(t, p.field)
    case Between =>
      if p.value.List? && |p.value.items| == 2 then
        And3(row.compare(Ge, p.field, p.value.items[0]), row.compare(Le, p.field, p.value.items[1]))
      else Unknown
    case Overlaps => if p.value.List? && p.value.items == [] then False else row.overlap(p.field, p.value)
    case In => AnyEqual(row, p.field, if p.value.List? then p.value.items else [p.value])
    case NotIn => AllDiffer(row, p.field, if p.value.List? then p.value.items else [p.value])
    case Contains => LikeMeaning(row, p, d.foldLike)
    case NotContains => Not3(LikeMeaning(row, p, d.foldLike))
    case Likes => LikeMeaning(row, p, false)
    case NotLikes => Not3(LikeMeaning(row, p, false))
  }

  ghost function Meaning(d: Dialect, row: Row, p: Predicate): Tri
    decreases p
  {
    match p
    case Connector(_) => Unknown
    case Group(children) => ListMeaning(d, row, children)
    case Match(s) => row.search(s, if d.search(s).Some? then d.search(s).value else [])
    case Cond(_, _, _, _, _) => ConditionMeaning(d, row, p)
    case Invalid(_) => Unknown
  }

  /** The conditions up to the first OR, all together. */
  ghost function Conjunction(d: Dialect, row: Row, ps: seq<Predicate>): Tri
    decreases ps, 0
  {
    if ps == [] || ps[0] == Connector(true) then True
    else if ps[0].Connector? then Conjunction(d, row, ps[1..])
    else And3(Meaning(d, row, ps[0]), Conjunction(d, row, ps[1..]))
  }

  /** What is left of ps from its first OR on. */
  function FromOr(ps: seq<Predicate>): (rest: seq<Predicate>)
    ensures rest == [] || rest[0] == Connector(true)
  {
    ps[OrAt(ps)..]
  }

  /** Position of the first OR of ps. */
  function OrAt(ps: seq<Predicate>): (j: nat)
    ensures j <= |ps|
    ensures j < |ps| ==> ps[j] == Connector(true)
  {
    if ps == [] || ps[0] == Connector(true) then 0 else 1 + OrAt(ps[1..])
  }

  lemma {:induction false} FromOrTail(ps: seq<Predicate>)
    requires ps != [] && ps[0] != Connector(true)
    ensures FromOr(ps) == FromOr(ps[1..])
  {
  }

  ghost function ListMeaning(d: Dialect, row: Row, ps: seq<Predicate>): Tri
    decreases ps, 1
  {
    var rest := FromOr(ps);
    if rest == [] then Conjunction(d, row, ps)
    else Or3(Conjunction(d, row, ps), ListMeaning(d, row, rest[1..]))
  }

  // ----- well-placed connectors -----

  predicate WellFormed(p: Predicate)
    decreases p
  {
    p.Group? ==> WellPlaced(p.children)
  }

  /** At least one condition; no connector leads, trails or follows another; groups are
      well placed inside. */
  predicate WellPlaced(ps: seq<Predicate>)
    decreases ps
  {
    && ps != []
    && !ps[0].Connector? && !ps[|ps| - 1].Connector?
    && (forall i | 0 < i < |ps| :: !(ps[i - 1].Connector? && ps[i].Connector?))
    && (forall i | 0 <= i < |ps| :: WellFormed(ps[i]))
  }

  /** The first operand of ps may stand where an operand is expected, and every entry up
      to the first OR is well placed. */
  predicate OperandFirst(ps: seq<Predicate>)
    decreases ps, 1
  {
    ps != [] && !ps[0].Connector? && WellFormed(ps[0]) && AfterOperand(ps[1..])
  }

  predicate AfterOperand(ps: seq<Predicate>)
    decreases ps, 0
  {
    if ps == [] || ps[0] == Connector(true) then true
    else if ps[0].Connector? then OperandFirst(ps[1..])
    else WellFormed(ps[0]) && AfterOperand(ps[1..])
  }

  /** Well-placed lists, segment by segment. */
  lemma {:induction false} WellPlacedBySegment(ps: seq<Predicate>)
    ensures WellPlaced(ps) <==> OperandFirst(ps) && (FromOr(ps) == [] || WellPlaced(FromOr(ps)[1..]))
  {
    if ps != [] && !ps[0].Connector? {
      var t := ps[1..];
      FromOrTail(ps);
      if t == [] {
      } else if t[0].Connector? {
        WellPlacedDrop(ps, 2);
        if !t[0].or {
          WellPlacedBySegment(t[1..]);
        }
      } else {
        WellPlacedDrop(ps, 1);
        WellPlacedBySegment(t);
      }
    }
  }

  /** Dropping a leading condition, with the connector after it when there is one. */
  lemma {:induction false} WellPlacedDrop(ps: seq<Predicate>, k: nat)
    requires |ps| >= 2 && !ps[0].Connector? && k == if ps[1].Connector? then 2 else 1
    ensures WellPlaced(ps) <==> WellFormed(ps[0]) && WellPlaced(ps[k..])
  {
    var t := ps[k..];
    assert forall i | k <= i < |ps| :: ps[i] == t[i - k];
    if WellPlaced(ps) {
      assert forall i | 0 <= i < |t| :: t[i] == ps[i + k];
    }
    if WellFormed(ps[0]) && WellPlaced(t) {
      assert t[|t| - 1] == ps[|ps| - 1];
      forall i | 0 <= i < |ps| ensures WellFormed(ps[i]) {
        if i >= k {
          assert WellFormed(t[i - k]);
        }
      }
      forall i | 0 < i < |ps| ensures !(ps[i - 1].Connector? && ps[i].Connector?) {
        if i > k {
          assert !(t[i - k - 1].Connector? && t[i - k].Connector?);
        }
      }
    }
  }

  // ----- reading the text back -----

  ghost predicate RowOf(d: Dialect, row: Row) {
    Lawful(row) && row.matcher(false).extra == d.extra && row.matcher(true).extra == d.extra
  }

  /** all binds the parameters own right after its first n. */
  predicate BoundAt(all: seq<Value>, n: nat, own: seq<Value>) {
    n + |own| <= |all| && all[n..n + |own|] == own
  }

  lemma {:induction false} BoundSplit(all: seq<Value>, n: nat, a: seq<Value>, b: seq<Value>)
    requires BoundAt(all, n, a + b)
    ensures BoundAt(all, n, a) && BoundAt(all, n + |a|, b)
  {
    assert all[n..n + |a|] == (a + b)[..|a|];
    assert all[n + |a|..n + |a| + |b|] == (a + b)[|a|..];
  }

  lemma {:induction false} BoundIs(all: seq<Value>, n: nat, own: seq<Value>, i: nat)
    requires BoundAt(all, n, own) && i < |own|
    ensures Bound(all, n + 1 + i) == own[i]
  {
    assert all[n..n + |own|][i] == own[i];
  }

  /** A list of placeholders reads back as their numbers. */
  lemma {:induction false} ParamListReads(n: nat, k: nat, tail: seq<Token>)
    requires k > 0
    ensures ParseList(ParamList(n, k) + [RParen] + tail)
            == Some((seq(k, i requires 0 <= i => n + 1 + i), tail))
    decreases k
  {
    var ts := ParamList(n, k) + [RParen] + tail;
    if k == 1 {
      assert ts[2..] == tail;
      assert [n + 1] == seq(k, i requires 0 <= i => n + 1 + i);
    } else {
      assert ts[2..] == ParamList(n + 1, k - 1) + [RParen] + tail;
      ParamListReads(n + 1, k - 1, tail);
      assert seq(k, i requires 0 <= i => n + 1 + i)
          == [n + 1] + seq(k - 1, i requires 0 <= i => n + 2 + i);
    }
  }

  /** A text that may follow a complete condition inside a clause. */
  predicate Follows(k: seq<Token>) {
    k == [] || k[0] in {RParen, AndKw, OrKw}
  }

  ghost predicate ReadsAs(r: Parsed, row: Row, all: seq<Value>, rest: seq<Token>, value: Tri) {
    r.Ok? && r.rest == rest && Eval(row, all, r.e) == value
  }

  lemma {:induction false} LikeReads(d: Dialect, row: Row, p: Predicate, n: nat, k: seq<Token>, all: seq<Value>,
                                     negate: bool, fold: bool)
    requires p.Cond? && ConditionError(d, p).None? && IsLike(p.operator) && RowOf(d, row) && Follows(k)
    requires BoundAt(all, n, [LikePattern(d, p)])
    ensures ReadsAs(ParsePrimary([Col(p.field), LikeKw(negate, fold), Param(n + 1)] + EscapeText(p.literal) + k),
                    row, all, k, Negated(negate, LikeMeaning(row, p, fold)))
  {
    hide LikeMeaning, ParsePrimary, ConditionError, LikePattern;
    if p.literal {
      EscapedLikeReads(d, row, p, n, k, all, negate, fold);
    } else {
      PlainLikeReads(d, row, p, n, k, all, negate, fold);
    }
  }

  lemma {:induction false} EscapedLikeReads(d: Dialect, row: Row, p: Predicate, n: nat, k: seq<Token>,
                                            all: seq<Value>, negate: bool, fold: bool)
    requires p.Cond? && ConditionError(d, p).None? && IsLike(p.operator) && RowOf(d, row) && p.literal
    requires BoundAt(all, n, [LikePattern(d, p)])
    ensures ReadsAs(ParsePrimary([Col(p.field), LikeKw(negate, fold), Param(n + 1)] + EscapeText(p.literal) + k),
                    row, all, k, Negated(negate, LikeMeaning(row, p, fold)))
  {
    var ts := [Col(p.field), LikeKw(negate, fold), Param(n + 1)] + EscapeText(p.literal) + k;
    BoundIs(all, n, [LikePattern(d, p)], 0);
    assert ts[1..][3..] == k;
    if row.text(p.field).Some? {
      Like.SubstringExact(row.matcher(fold), p.value.s, row.text(p.field).value);
    }
  }

  lemma {:induction false} PlainLikeReads(d: Dialect, row: Row, p: Predicate, n: nat, k: seq<Token>, all: seq<Value>,
                                          negate: bool, fold: bool)
    requires p.Cond? && ConditionError(d, p).None? && IsLike(p.operator) && RowOf(d, row) && Follows(k) && !p.literal
    requires BoundAt(all, n, [LikePattern(d, p)])
    ensures ReadsAs(ParsePrimary([Col(p.field), LikeKw(negate, fold), Param(n + 1)] + EscapeText(p.literal) + k),
                    row, all, k, Negated(negate, LikeMeaning(row, p, fold)))
  {
    var ts := [Col(p.field), LikeKw(negate, fold), Param(n + 1)] + EscapeText(p.literal) + k;
    BoundIs(all, n, [LikePattern(d, p)], 0);
    assert ts[1..][2..] == k;
  }

  /** column [NOT] IN (list) */
  lemma {:induction false} InListReads(row: Row, c: string, negate: bool, vs: seq<Value>, n: nat, k: seq<Token>,
                                       all: seq<Value>)
    requires Lawful(row) && vs != [] && BoundAt(all, n, vs)
    ensures ReadsAs(ParsePrimary([Col(c), InKw(negate), LParen] + ParamList(n, |vs|) + [RParen] + k), row, all, k,
                    if negate then AllDiffer(row, c, vs) else AnyEqual(row, c, vs))
  {
    hide ParamList, ParseList, AnyEqual, AllDiffer;
    var list := ParamList(n, |vs|) + [RParen] + k;
    var ts := [Col(c), InKw(negate), LParen] + ParamList(n, |vs|) + [RParen] + k;
    assert ts == [Col(c), InKw(negate), LParen] + list;
    assert ts[1..][2..] == list;
    ParamListReads(n, |vs|, k);
    AllDifferIsNotAnyEqual(row, c, vs);
    var ns := seq(|vs|, i requires 0 <= i => n + 1 + i);
    forall i | 0 <= i < |vs| ensures Bound(all, ns[i]) == vs[i] {
      BoundIs(all, n, vs, i);
    }
    assert BoundAll(all, ns) == vs;
  }

  lemma {:induction false} MembershipReads(d: Dialect, row: Row, p: Predicate, n: nat, k: seq<Token>, all: seq<Value>)
    requires p.Cond? && (p.operator.In? || p.operator.NotIn?) && RowOf(d, row)
    requires BoundAt(all, n, ConditionParams(d, p))
    ensures ReadsAs(ParsePrimary(Condition(d, p, n) + k), row, all, k, ConditionMeaning(d, row, p))
  {
    hide LikeMeaning, IsIdentifier, LikePattern;
    var own := ConditionParams(d, p);
    if !p.value.List? {
      assert ParamList(n, 1) == [Param(n + 1)];
      assert Condition(d, p, n) == [Col(p.field), InKw(p.operator.NotIn?), LParen] + ParamList(n, 1) + [RParen];
      InListReads(row, p.field, p.operator.NotIn?, own, n, k, all);
    } else if p.value.items == [] {
      assert (Condition(d, p, n) + k)[3..] == k;
    } else if BindsArray(d, p.value) {
      hide ParamList, ParseList, AnyEqual, AllDiffer;
      BoundIs(all, n, own, 0);
      assert (Condition(d, p, n) + k)[1..][5..] == k;
    } else {
      InListReads(row, p.field, p.operator.NotIn?, own, n, k, all);
    }
  }

  /** A condition reads back as one operand, whatever legally follows it. */
  lemma {:induction false} ConditionReads(d: Dialect, row: Row, p: Predicate, n: nat, k: seq<Token>, all: seq<Value>)
    requires p.Cond? && ConditionError(d, p).None? && RowOf(d, row) && Follows(k)
    requires BoundAt(all, n, ConditionParams(d, p))
    ensures ReadsAs(ParsePrimary(Condition(d, p, n) + k), row, all, k, ConditionMeaning(d, row, p))
  {
    hide Condition, ConditionMeaning, ConditionParams, ConditionError, ParsePrimary, ReadsAs;
    if IsLike(p.operator) {
      LikeConditionReads(d, row, p, n, k, all);
    } else if p.operator.In? || p.operator.NotIn? {
      MembershipReads(d, row, p, n, k, all);
    } else if p.operator.Between? {
      BetweenReads(d, row, p, n, k, all);
    } else {
      SimpleReads(d, row, p, n, k, all);
    }
  }

  lemma {:induction false} LikeConditionReads(d: Dialect, row: Row, p: Predicate, n: nat, k: seq<Token>,
                                              all: seq<Value>)
    requires p.Cond? && ConditionError(d, p).None? && RowOf(d, row) && Follows(k) && IsLike(p.operator)
    requires BoundAt(all, n, ConditionParams(d, p))
    ensures ReadsAs(ParsePrimary(Condition(d, p, n) + k), row, all, k, ConditionMeaning(d, row, p))
  {
    hide LikeMeaning, IsIdentifier, LikePattern, ParsePrimary, ReadsAs;
    match p.operator {
      case Contains => LikeReads(d, row, p, n, k, all, false, d.foldLike);
      case NotContains => LikeReads(d, row, p, n, k, all, true, d.foldLike);
      case Likes => LikeReads(d, row, p, n, k, all, false, false);
      case NotLikes => LikeReads(d, row, p, n, k, all, true, false);
    }
  }

  lemma {:induction false} BetweenReads(d: Dialect, row: Row, p: Predicate, n: nat, k: seq<Token>, all: seq<Value>)
    requires p.Cond? && ConditionError(d, p).None? && RowOf(d, row) && p.operator.Between?
    requires BoundAt(all, n, ConditionParams(d, p))
    ensures ReadsAs(ParsePrimary(Condition(d, p, n) + k), row, all, k, ConditionMeaning(d, row, p))
  {
    hide LikeMeaning, IsIdentifier, LikePattern, ParamList, ParseList, AnyEqual, AllDiffer;
    var ts := Condition(d, p, n) + k;
    var own := ConditionParams(d, p);
    assert ts[1..][4..] == k;
    BoundIs(all, n, own, 0);
    BoundIs(all, n, own, 1);
  }

  /** A check, a comparison or an overlap. */
  lemma {:induction false} SimpleReads(d: Dialect, row: Row, p: Predicate, n: nat, k: seq<Token>, all: seq<Value>)
    requires p.Cond? && ConditionError(d, p).None? && RowOf(d, row) && Follows(k)
    requires p.operator.Check? || p.operator.Compare? || p.operator.Overlaps?
    requires BoundAt(all, n, ConditionParams(d, p))
    ensures ReadsAs(ParsePrimary(Condition(d, p, n) + k), row, all, k, ConditionMeaning(d, row, p))
  {
    hide LikeMeaning, IsIdentifier, LikePattern, ParamList, ParseList, AnyEqual, AllDiffer;
    var ts := Condition(d, p, n) + k;
    var own := ConditionParams(d, p);
    match p.operator {
      case Check(_) =>
        assert ts[1..][1..] == k;
      case Compare(_) =>
        assert ts[1..][2..] == k;
        BoundIs(all, n, own, 0);
      case Overlaps =>
        if p.value.items == [] {
          assert ts[3..] == k;
        } else {
          assert ts[1..][2..] == k;
          BoundIs(all, n, own, 0);
        }
    }
  }

  /** An entry that is not a connector reads back as one operand when it is well formed,
      and does not read back otherwise. */
  lemma {:induction false} OperandReads(d: Dialect, row: Row, p: Predicate, n: nat, k: seq<Token>, all: seq<Value>)
    requires !p.Connector? && PredicateError(d, p).None? && RowOf(d, row) && Follows(k)
    requires BoundAt(all, n, PredicateParams(d, p))
    ensures WellFormed(p) ==> ReadsAs(ParsePrimary(PredicateText(d, p, n) + k), row, all, k, Meaning(d, row, p))
    ensures !WellFormed(p) ==> ParsePrimary(PredicateText(d, p, n) + k).Fail?
    decreases p
  {
    hide Condition, ConditionParams, ConditionError, ConditionMeaning,
         ParseOr, Clause, ClauseParams, ClauseError, ListMeaning, WellPlaced;
    var ts := PredicateText(d, p, n) + k;
    match p {
      case Cond(_, _, _, _, _) => ConditionReads(d, row, p, n, k, all);
      case Match(s) =>
        assert ts[1..] == k;
        var own := PredicateParams(d, p);
        forall i | 0 <= i < |own| ensures Bound(all, n + 1 + i) == own[i] {
          BoundIs(all, n, own, i);
        }
        assert seq(|own|, i requires 0 <= i => Bound(all, n + 1 + i)) == own;
      case Group(children) =>
        var inner := [RParen] + k;
        assert ts[1..] == Clause(d, true, children, n) + inner;
        ListReads(d, row, children, n, inner, all);
        assert inner[1..] == k;
    }
  }

  /** How the rest of a list starts once an operand has been read. */
  lemma {:induction false} TailFollows(d: Dialect, ps: seq<Predicate>, n: nat, k: seq<Token>)
    requires k == [] || k[0] == RParen
    ensures Follows(Clause(d, false, ps, n) + k)
    ensures ps != [] && !ps[0].Connector? ==>
              Clause(d, false, ps, n) + k == [AndKw] + (Clause(d, true, ps, n) + k)
    ensures ps != [] && ps[0].Connector? ==>
              Clause(d, false, ps, n) + k == [if ps[0].or then OrKw else AndKw] + (Clause(d, true, ps[1..], n) + k)
  {
    hide Condition, ConditionParams;
    if ps != [] && !ps[0].Connector? {
      assert Clause(d, false, ps, n) == [AndKw] + Clause(d, true, ps, n);
    }
  }

  lemma {:induction false} ErrorFree(d: Dialect, ps: seq<Predicate>)
    requires ps != [] && ClauseError(d, ps).None?
    ensures PredicateError(d, ps[0]).None? && ClauseError(d, ps[1..]).None?
  {
  }

  predicate EndsWith<T(==)>(all: seq<T>, last: seq<T>) {
    |last| <= |all| && all[|all| - |last|..] == last
  }

  lemma {:induction false} EndsWithConcat<T>(a: seq<T>, b: seq<T>, last: seq<T>)
    requires EndsWith(b, last)
    ensures EndsWith(a + b, last)
  {
    assert (a + b)[|a| + |b| - |last|..] == b[|b| - |last|..];
  }

  /** What follows the first OR keeps its errors and its parameters. */
  lemma {:induction false} FromOrSuffix(d: Dialect, ps: seq<Predicate>)
    requires ClauseError(d, ps).None?
    ensures ClauseError(d, FromOr(ps)).None?
    ensures EndsWith(ClauseParams(d, ps), ClauseParams(d, FromOr(ps)))
  {
    if ps != [] && ps[0] != Connector(true) {
      hide PredicateParams, PredicateError, EndsWith;
      FromOrTail(ps);
      ErrorFree(d, ps);
      FromOrSuffix(d, ps[1..]);
      EndsWithConcat(PredicateParams(d, ps[0]), ClauseParams(d, ps[1..]), ClauseParams(d, FromOr(ps)));
    }
  }

  lemma {:induction false} BoundSuffix(all: seq<Value>, n: nat, own: seq<Value>, last: seq<Value>)
    requires BoundAt(all, n, own) && EndsWith(own, last)
    ensures BoundAt(all, n + |own| - |last|, last)
  {
    assert own == own[..|own| - |last|] + last;
    BoundSplit(all, n, own[..|own| - |last|], last);
  }

  // One step of the parser, on a text whose first operand is known.

  lemma {:induction false} AndReads(row: Row, all: seq<Value>, ts: seq<Token>, v: Tri, more: seq<Token>,
                                    rest: seq<Token>, w: Tri)
    requires ReadsAs(ParsePrimary(ts), row, all, [AndKw] + more, v)
    ensures ReadsAs(ParseAnd(more), row, all, rest, w) ==> ReadsAs(ParseAnd(ts), row, all, rest, And3(v, w))
    ensures ParseAnd(more).Fail? ==> ParseAnd(ts).Fail?
  {
    assert ([AndKw] + more)[1..] == more;
  }

  lemma {:induction false} AndEnds(row: Row, all: seq<Value>, ts: seq<Token>, v: Tri, rest: seq<Token>)
    requires ReadsAs(ParsePrimary(ts), row, all, rest, v) && !StartsWith(rest, AndKw)
    ensures ReadsAs(ParseAnd(ts), row, all, rest, And3(v, True))
  {
  }

  lemma {:induction false} AndFails(ts: seq<Token>)
    requires ParsePrimary(ts).Fail?
    ensures ParseAnd(ts).Fail?
  {
  }

  lemma {:induction false} OrReads(row: Row, all: seq<Value>, ts: seq<Token>, v: Tri, more: seq<Token>,
                                   rest: seq<Token>, w: Tri)
    requires ReadsAs(ParseAnd(ts), row, all, [OrKw] + more, v)
    ensures ReadsAs(ParseOr(more), row, all, rest, w) ==> ReadsAs(ParseOr(ts), row, all, rest, Or3(v, w))
    ensures ParseOr(more).Fail? ==> ParseOr(ts).Fail?
  {
    assert ([OrKw] + more)[1..] == more;
  }

  lemma {:induction false} OrEnds(ts: seq<Token>)
    requires ParseAnd(ts).Ok? ==> !StartsWith(ParseAnd(ts).rest, OrKw)
    ensures ParseOr(ts) == ParseAnd(ts)
  {
  }

  /** The number of parameters bound before what follows the first OR of ps. */
  function Before(d: Dialect, ps: seq<Predicate>, n: nat): int {
    n + |ClauseParams(d, ps)| - |ClauseParams(d, FromOr(ps))|
  }

  lemma {:induction false} BeforeAtLeast(d: Dialect, ps: seq<Predicate>, n: nat)
    requires ClauseError(d, ps).None?
    ensures Before(d, ps, n) >= n
  {
    hide PredicateParams, PredicateError;
    FromOrSuffix(d, ps);
  }

  /** A text that does not start with an operand. */
  lemma {:induction false} NoOperand(d: Dialect, ps: seq<Predicate>, n: nat, k: seq<Token>)
    requires (k == [] || k[0] == RParen) && (ps == [] || ps[0].Connector?)
    ensures ParseAnd(Clause(d, true, ps, n) + k).Fail?
  {
    hide Condition, ConditionParams;
    var ts := Clause(d, true, ps, n) + k;
    if ps == [] {
      assert ts == k;
    } else {
      assert Clause(d, true, ps, n) == PredicateText(d, ps[0], n) + Clause(d, true, ps[1..], n);
      assert ts[0] == if ps[0].or then OrKw else AndKw;
    }
  }

  /** The entries after the first operand of ps, from the next operand on. */
  function Next(ps: seq<Predicate>): seq<Predicate>
    requires |ps| >= 2
  {
    if ps[1].Connector? then ps[2..] else ps[1..]
  }

  lemma {:induction false} NextInConjunction(d: Dialect, row: Row, ps: seq<Predicate>)
    requires |ps| >= 2 && !ps[0].Connector? && ps[1] != Connector(true)
    ensures Conjunction(d, row, ps) == And3(Meaning(d, row, ps[0]), Conjunction(d, row, Next(ps)))
    ensures OperandFirst(ps) <==> WellFormed(ps[0]) && OperandFirst(Next(ps))
    ensures FromOr(ps) == FromOr(Next(ps))
    ensures forall n: nat :: Before(d, ps, n) == Before(d, Next(ps), n + |PredicateParams(d, ps[0])|)
  {
    hide Meaning, WellFormed, ConditionParams;
    var rest := ps[1..];
    FromOrTail(ps);
    if rest[0].Connector? {
      FromOrTail(rest);
      ConnectorBindsNothing(d, rest);
      assert rest[1..] == ps[2..];
      assert AfterOperand(rest) == OperandFirst(rest[1..]);
      assert Conjunction(d, row, rest) == Conjunction(d, row, rest[1..]);
    } else {
      assert AfterOperand(rest) == OperandFirst(rest);
    }
  }

  /** The list ends, or an OR follows, right after its first operand. */
  lemma {:induction false} LastInConjunction(d: Dialect, row: Row, ps: seq<Predicate>)
    requires ps != [] && !ps[0].Connector? && (|ps| == 1 || ps[1] == Connector(true))
    ensures Conjunction(d, row, ps) == And3(Meaning(d, row, ps[0]), True)
    ensures OperandFirst(ps) <==> WellFormed(ps[0])
    ensures FromOr(ps) == ps[1..]
    ensures forall n: nat :: Before(d, ps, n) == n + |PredicateParams(d, ps[0])|
  {
    hide Meaning, WellFormed, PredicateParams;
    FromOrTail(ps);
    assert AfterOperand(ps[1..]);
    assert Conjunction(d, row, ps[1..]) == True;
  }

  lemma {:induction false} NextClause(d: Dialect, ps: seq<Predicate>, n: nat, k: seq<Token>)
    requires |ps| >= 2 && !ps[0].Connector? && ps[1] != Connector(true) && ClauseError(d, ps).None?
    requires k == [] || k[0] == RParen
    ensures ClauseError(d, Next(ps)).None?
    ensures ClauseParams(d, ps) == PredicateParams(d, ps[0]) + ClauseParams(d, Next(ps))
    ensures Clause(d, false, ps[1..], n) + k == [AndKw] + (Clause(d, true, Next(ps), n) + k)
  {
    hide PredicateText, PredicateParams, PredicateError;
    ErrorFree(d, ps);
    TailFollows(d, ps[1..], n, k);
    if ps[1].Connector? {
      ErrorFree(d, ps[1..]);
      ConnectorBindsNothing(d, ps[1..]);
      assert ps[1..][1..] == ps[2..];
    }
  }

  lemma {:induction false} ClauseHead(d: Dialect, ps: seq<Predicate>, n: nat, k: seq<Token>)
    requires ps != [] && !ps[0].Connector?
    ensures ClauseParams(d, ps) == PredicateParams(d, ps[0]) + ClauseParams(d, ps[1..])
    ensures Clause(d, true, ps, n) + k
         == PredicateText(d, ps[0], n) + (Clause(d, false, ps[1..], n + |PredicateParams(d, ps[0])|) + k)
  {
    hide PredicateText, PredicateParams;
    assert Clause(d, true, ps, n)
        == PredicateText(d, ps[0], n) + Clause(d, false, ps[1..], n + |PredicateParams(d, ps[0])|);
  }

  /** Reading a conjunction stops right before the first OR, or at k. */
  lemma {:induction false} ConjunctionReads(d: Dialect, row: Row, ps: seq<Predicate>, n: nat, k: seq<Token>,
                                            all: seq<Value>)
    requires ClauseError(d, ps).None? && RowOf(d, row) && (k == [] || k[0] == RParen)
    requires BoundAt(all, n, ClauseParams(d, ps))
    ensures Before(d, ps, n) >= n
    ensures OperandFirst(ps) ==>
              ReadsAs(ParseAnd(Clause(d, true, ps, n) + k), row, all,
                      Clause(d, false, FromOr(ps), Before(d, ps, n)) + k, Conjunction(d, row, ps))
    ensures !OperandFirst(ps) ==> ParseAnd(Clause(d, true, ps, n) + k).Fail?
    decreases ps, 0
  {
    hide PredicateParams, PredicateError, PredicateText, ParsePrimary, ParseAnd, ReadsAs, BoundAt, Follows, RowOf,
         Meaning, Conjunction, WellFormed, AfterOperand, FromOr, Before, Clause, ClauseParams, ClauseError;
    BeforeAtLeast(d, ps, n);
    if ps == [] || ps[0].Connector? {
      NoOperand(d, ps, n, k);
    } else {
      ErrorFree(d, ps);
      ClauseHead(d, ps, n, k);
      var own, rest := PredicateParams(d, ps[0]), ps[1..];
      BoundSplit(all, n, own, ClauseParams(d, rest));
      var m := n + |own|;
      var ts, tail := Clause(d, true, ps, n) + k, Clause(d, false, rest, m) + k;
      TailFollows(d, rest, m, k);
      OperandReads(d, row, ps[0], n, tail, all);
      if rest == [] || rest[0] == Connector(true) {
        LastInConjunction(d, row, ps);
        TailNoAnd(d, rest, m, k);
        if WellFormed(ps[0]) {
          AndEnds(row, all, ts, Meaning(d, row, ps[0]), tail);
        } else {
          AndFails(ts);
        }
      } else {
        var next := Next(ps);
        NextInConjunction(d, row, ps);
        NextClause(d, ps, m, k);
        BoundSplit(all, n, own, ClauseParams(d, next));
        ConjunctionReads(d, row, next, m, k, all);
        if WellFormed(ps[0]) {
          AndReads(row, all, ts, Meaning(d, row, ps[0]), Clause(d, true, next, m) + k,
                   Clause(d, false, FromOr(next), Before(d, next, m)) + k, Conjunction(d, row, next));
        } else {
          AndFails(ts);
        }
      }
    }
  }

  lemma {:induction false} TailNoAnd(d: Dialect, ps: seq<Predicate>, n: nat, k: seq<Token>)
    requires (ps == [] || ps[0] == Connector(true)) && (k == [] || k[0] == RParen)
    ensures !StartsWith(Clause(d, false, ps, n) + k, AndKw)
  {
    hide Condition, ConditionParams;
    TailFollows(d, ps, n, k);
  }

  lemma {:induction false} ConnectorBindsNothing(d: Dialect, ps: seq<Predicate>)
    requires ps != [] && ps[0].Connector?
    ensures ClauseParams(d, ps) == ClauseParams(d, ps[1..])
  {
    hide ConditionParams;
  }

  /** A clause reads back with the meaning of its list when the list is well placed, and
      does not read back otherwise. */
  lemma {:induction false} ListReads(d: Dialect, row: Row, ps: seq<Predicate>, n: nat, k: seq<Token>, all: seq<Value>)
    requires ClauseError(d, ps).None? && RowOf(d, row) && (k == [] || k[0] == RParen)
    requires BoundAt(all, n, ClauseParams(d, ps))
    ensures WellPlaced(ps) ==> ReadsAs(ParseOr(Clause(d, true, ps, n) + k), row, all, k, ListMeaning(d, row, ps))
    ensures !WellPlaced(ps) ==> ParseOr(Clause(d, true, ps, n) + k).Fail?
    decreases ps, 1
  {
    hide PredicateText, PredicateParams, PredicateError, ParseAnd, ParseOr, RowOf,
         Meaning, Conjunction, OperandFirst, WellPlaced;
    WellPlacedBySegment(ps);
    ConjunctionReads(d, row, ps, n, k, all);
    var ts, rest := Clause(d, true, ps, n) + k, FromOr(ps);
    if !OperandFirst(ps) {
      OrEnds(ts);
    } else if rest == [] {
      assert Clause(d, false, rest, Before(d, ps, n)) + k == k;
      OrEnds(ts);
    } else {
      var m := Before(d, ps, n);
      FromOrSuffix(d, ps);
      BoundSuffix(all, n, ClauseParams(d, ps), ClauseParams(d, rest));
      TailFollows(d, rest, m, k);
      ErrorFree(d, rest);
      ConnectorBindsNothing(d, rest);
      ListReads(d, row, rest[1..], m, k, all);
      OrReads(row, all, ts, Conjunction(d, row, ps), Clause(d, true, rest[1..], m) + k, k,
              ListMeaning(d, row, rest[1..]));
    }
  }

  // ----- theorems -----

  /** Meaning preservation. For every accepted predicate list, on every row: the clause
      written after args reads back as a condition exactly when the list is well placed, and
      then evaluates, under the parameters that come back with it, to the meaning of the
      list. A raw field is taken as one column reference. */
  lemma {:induction false} CompiledMeaning(d: Dialect, row: Row, args: seq<Value>, ps: seq<Predicate>)
    requires BuiltAfter(args, ps, d).Accepted? && RowOf(d, row)
    ensures var b := BuiltAfter(args, ps, d);
            Value3(row, b.params, b.text) == if WellPlaced(ps) then Some(ListMeaning(d, row, ps)) else None
  {
    var b := BuiltAfter(args, ps, d);
    assert b.params[|args|..|args| + |ClauseParams(d, ps)|] == ClauseParams(d, ps);
    ListReads(d, row, ps, |args|, [], b.params);
    assert Clause(d, true, ps, |args|) + [] == b.text;
  }
}
