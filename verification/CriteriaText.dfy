/**
  What the text of a clause is made of: its placeholders and the columns it names.
 */
module CriteriaText {
  import opened SqlText
  import opened Criteria
  import opened CriteriaMeaning

  /** The numbers n+1 .. n+k. */
  function Numbers(n: nat, k: nat): seq<nat> {
    seq(k, i requires 0 <= i => n + 1 + i)
  }

  lemma {:induction false} ClauseCons(d: Dialect, open: bool, q: Predicate, r: seq<Predicate>, n: nat)
    ensures ClauseParams(d, [q] + r) == PredicateParams(d, q) + ClauseParams(d, r)
    ensures Clause(d, open, [q] + r, n)
         == Joint(open, q) + PredicateText(d, q, n) + Clause(d, q.Connector?, r, n + |PredicateParams(d, q)|)
  {
    hide PredicateText, PredicateParams, Joint;
    assert ([q] + r)[1..] == r;
  }

  lemma {:induction false} NumbersConcat(n: nat, a: nat, b: nat)
    ensures Numbers(n, a) + Numbers(n + a, b) == Numbers(n, a + b)
  {
  }

  lemma {:induction false} ParamListNumbers(n: nat, k: nat)
    ensures Placeholders(ParamList(n, k)) == Numbers(n, k)
    decreases k
  {
    if k > 1 {
      assert ParamList(n, k)[1..][1..] == ParamList(n + 1, k - 1);
      ParamListNumbers(n + 1, k - 1);
    }
  }

  lemma {:induction false} BetweenNumbers(d: Dialect, p: Predicate, n: nat)
    requires p.Cond? && ConditionError(d, p).None? && p.operator.Between?
    ensures Placeholders(Condition(d, p, n)) == Numbers(n, |ConditionParams(d, p)|)
  {
    hide LikePattern, IsIdentifier, ParamList;
    var ts := Condition(d, p, n);
    NoNumbers(ts[..2]);
    OneNumber(ts[3..4], n + 2, []);
    assert ts == ts[..2] + [Param(n + 1)] + (ts[3..4] + [Param(n + 2)] + []);
    PlaceholdersConcat(ts[..2] + [Param(n + 1)], ts[3..4] + [Param(n + 2)] + []);
    OneNumber(ts[..2], n + 1, []);
    assert ts[..2] + [Param(n + 1)] + [] == ts[..2] + [Param(n + 1)];
  }

  lemma {:induction false} ConditionNumbers(d: Dialect, p: Predicate, n: nat)
    requires p.Cond? && ConditionError(d, p).None?
    ensures Placeholders(Condition(d, p, n)) == Numbers(n, |ConditionParams(d, p)|)
  {
    hide LikePattern, IsIdentifier, ParamList;
    var ts := Condition(d, p, n);
    match p.operator {
      case Check(_) =>
        NoNumbers(ts);
      case Between =>
        BetweenNumbers(d, p, n);
      case In => MembershipNumbers(d, p, n);
      case NotIn => MembershipNumbers(d, p, n);
      case Overlaps =>
        if p.value.items == [] {
          NoNumbers(ts);
        } else {
          OneNumber(ts[..2], n + 1, []);
          assert ts == ts[..2] + [Param(n + 1)] + [];
        }
      case _ =>
        OneNumber(ts[..2], n + 1, ts[3..]);
        assert ts == ts[..2] + [Param(n + 1)] + ts[3..];
    }
  }

  lemma {:induction false} MembershipNumbers(d: Dialect, p: Predicate, n: nat)
    requires p.Cond? && (p.operator.In? || p.operator.NotIn?)
    ensures Placeholders(Condition(d, p, n)) == Numbers(n, |ConditionParams(d, p)|)
  {
    hide LikePattern, ParamList;
    var ts := Condition(d, p, n);
    if !p.value.List? {
      OneNumber(ts[..3], n + 1, [RParen]);
      assert ts == ts[..3] + [Param(n + 1)] + [RParen];
    } else if p.value.items == [] {
      NoNumbers(ts);
    } else if BindsArray(d, p.value) {
      OneNumber(ts[..4], n + 1, [RParen]);
      assert ts == ts[..4] + [Param(n + 1)] + [RParen];
    } else {
      ListNumbers(p.field, p.operator.NotIn?, n, |p.value.items|);
    }
  }

  lemma {:induction false} ListNumbers(c: string, negate: bool, n: nat, k: nat)
    ensures Placeholders([Col(c), InKw(negate), LParen] + ParamList(n, k) + [RParen]) == Numbers(n, k)
  {
    hide ParamList, Placeholders;
    var head, list := [Col(c), InKw(negate), LParen], ParamList(n, k);
    PlaceholdersConcat(head + list, [RParen]);
    PlaceholdersConcat(head, list);
    NoNumbers(head);
    NoNumbers([RParen]);
    ParamListNumbers(n, k);
  }

  predicate Plain(ts: seq<Token>) {
    forall i | 0 <= i < |ts| :: !ts[i].Param? && !ts[i].Text?
  }

  lemma {:induction false} NoNumbers(ts: seq<Token>)
    requires Plain(ts)
    ensures Placeholders(ts) == []
  {
    if ts != [] {
      NoNumbers(ts[1..]);
    }
  }

  lemma {:induction false} OneNumber(a: seq<Token>, n: nat, b: seq<Token>)
    requires Plain(a) && Plain(b)
    ensures Placeholders(a + [Param(n)] + b) == [n]
  {
    NoNumbers(a);
    NoNumbers(b);
    PlaceholdersConcat(a + [Param(n)], b);
    PlaceholdersConcat(a, [Param(n)]);
  }

  lemma {:induction false} PredicateNumbers(d: Dialect, p: Predicate, n: nat)
    requires PredicateError(d, p).None?
    ensures Placeholders(PredicateText(d, p, n)) == Numbers(n, |PredicateParams(d, p)|)
    decreases p
  {
    hide Condition, ConditionParams, ConditionError, Clause, ClauseParams, ClauseError;
    match p {
      case Cond(_, _, _, _, _) => ConditionNumbers(d, p, n);
      case Group(children) =>
        ClauseNumbers(d, true, children, n);
        GroupNumbers(Clause(d, true, children, n));
      case _ =>
    }
  }

  lemma {:induction false} GroupNumbers(inner: seq<Token>)
    ensures Placeholders([LParen] + inner + [RParen]) == Placeholders(inner)
  {
    hide Placeholders;
    PlaceholdersConcat([LParen] + inner, [RParen]);
    PlaceholdersConcat([LParen], inner);
    NoNumbers([LParen]);
    NoNumbers([RParen]);
  }

  /** Placeholders follow the text: they are numbered consecutively, left to right, one
      for each parameter, so a dialect whose placeholders are positional binds the same
      values. */
  lemma {:induction false} ClauseNumbers(d: Dialect, open: bool, ps: seq<Predicate>, n: nat)
    requires ClauseError(d, ps).None?
    ensures Placeholders(Clause(d, open, ps, n)) == Numbers(n, |ClauseParams(d, ps)|)
    decreases ps
  {
    hide PredicateText, PredicateParams, PredicateError, Placeholders;
    if ps == [] {
      NoNumbers([]);
    } else {
      ErrorFree(d, ps);
      var k := |PredicateParams(d, ps[0])|;
      var head, text := Joint(open, ps[0]), PredicateText(d, ps[0], n);
      var tail := Clause(d, ps[0].Connector?, ps[1..], n + k);
      PredicateNumbers(d, ps[0], n);
      ClauseNumbers(d, ps[0].Connector?, ps[1..], n + k);
      PlaceholdersConcat(head + text, tail);
      PlaceholdersConcat(head, text);
      NoNumbers(head);
      NumbersConcat(n, k, |ClauseParams(d, ps[1..])|);
    }
  }

  // ----- columns -----

  /** The fields of the conditions of a list, groups included. */
  function Fields(ps: seq<Predicate>): set<string>
    decreases ps
  {
    if ps == [] then {} else FieldsOf(ps[0]) + Fields(ps[1..])
  }

  function FieldsOf(p: Predicate): set<string>
    decreases p
  {
    match p
    case Cond(f, _, _, _, _) => {f}
    case Group(children) => Fields(children)
    case _ => {}
  }

  lemma {:induction false} ColumnsConcat(a: seq<Token>, b: seq<Token>)
    ensures Columns(a + b) == Columns(a) + Columns(b)
  {
    assert forall t :: t in a + b <==> t in a || t in b;
  }

  lemma {:induction false} ParamListColumns(n: nat, k: nat)
    ensures Columns(ParamList(n, k)) == {}
    decreases k
  {
    if k > 1 {
      ParamListColumns(n + 1, k - 1);
      ColumnsConcat([Param(n + 1), Comma], ParamList(n + 1, k - 1));
    }
  }

  lemma {:induction false} ConditionColumns(d: Dialect, p: Predicate, n: nat)
    requires p.Cond?
    ensures Columns(Condition(d, p, n)) <= {p.field}
  {
    hide ParamList;
    if (p.operator.In? || p.operator.NotIn?) && p.value.List? {
      var head, list := [Col(p.field), InKw(p.operator.NotIn?), LParen], ParamList(n, |p.value.items|);
      ParamListColumns(n, |p.value.items|);
      ColumnsConcat(head + list, [RParen]);
      ColumnsConcat(head, list);
    }
  }

  /** A clause names no column but the fields of its conditions. */
  lemma {:induction false} ClauseColumns(d: Dialect, open: bool, ps: seq<Predicate>, n: nat)
    ensures Columns(Clause(d, open, ps, n)) <= Fields(ps)
    decreases ps
  {
    hide PredicateText, PredicateParams, FieldsOf;
    if ps != [] {
      var k := |PredicateParams(d, ps[0])|;
      var head, text := Joint(open, ps[0]), PredicateText(d, ps[0], n);
      var tail := Clause(d, ps[0].Connector?, ps[1..], n + k);
      ColumnsConcat(head + text, tail);
      ColumnsConcat(head, text);
      ClauseColumns(d, ps[0].Connector?, ps[1..], n + k);
      EntryColumns(d, ps[0], n);
    }
  }

  lemma {:induction false} EntryColumns(d: Dialect, p: Predicate, n: nat)
    ensures Columns(PredicateText(d, p, n)) <= FieldsOf(p)
    decreases p
  {
    hide Condition, Clause, Fields;
    match p {
      case Group(children) =>
        var inner := Clause(d, true, children, n);
        ColumnsConcat([LParen] + inner, [RParen]);
        ColumnsConcat([LParen], inner);
        ClauseColumns(d, true, children, n);
      case Cond(_, _, _, _, _) => ConditionColumns(d, p, n);
      case _ =>
    }
  }
}
