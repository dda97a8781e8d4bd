/**
  The base query of a request: filters are appended to it as AND ( clause ), and AND binds
  tighter than an OR of the base. What the whole condition then returns, for every base.
 */
module FilterBase {
  import opened SqlText
  import opened Criteria
  import opened CriteriaMeaning
  import opened CriteriaText
  import opened CriteriaExample
  import opened Filter

  // ----- the text -----

  /** Writing one more condition at the end of a list that ends with a condition. */
  lemma {:induction false} ClauseSnoc(d: Dialect, open: bool, qs: seq<Predicate>, g: Predicate, n: nat)
    requires qs != [] && !qs[|qs| - 1].Connector? && !g.Connector?
    ensures ClauseParams(d, qs + [g]) == ClauseParams(d, qs) + PredicateParams(d, g)
    ensures Clause(d, open, qs + [g], n)
         == Clause(d, open, qs, n) + [AndKw] + PredicateText(d, g, n + |ClauseParams(d, qs)|)
    decreases |qs|
  {
    hide PredicateText, PredicateParams, Clause, ClauseParams;
    if |qs| == 1 {
      PairClause(d, open, qs[0], g, n);
      assert qs == [qs[0]];
    } else {
      var q, r := qs[0], qs[1..];
      assert qs == [q] + r && qs + [g] == [q] + (r + [g]);
      var k := |PredicateParams(d, q)|;
      ClauseCons(d, open, q, r, n);
      ClauseCons(d, open, q, r + [g], n);
      ClauseSnoc(d, q.Connector?, r, g, n + k);
      Together(Joint(open, q) + PredicateText(d, q, n), Clause(d, q.Connector?, r, n + k), [AndKw],
               PredicateText(d, g, n + k + |ClauseParams(d, r)|));
      assert PredicateParams(d, q) + (ClauseParams(d, r) + PredicateParams(d, g))
             == ClauseParams(d, qs) + PredicateParams(d, g);
    }
  }

  lemma {:induction false} Together<T>(a: seq<T>, b: seq<T>, c: seq<T>, e: seq<T>)
    ensures a + (b + c + e) == a + b + c + e
  {
  }

  /** A clause of two entries. */
  lemma {:induction false} PairClause(d: Dialect, open: bool, q: Predicate, g: Predicate, n: nat)
    requires !q.Connector? && !g.Connector?
    ensures ClauseParams(d, [q] + [g]) == ClauseParams(d, [q]) + PredicateParams(d, g)
    ensures Clause(d, open, [q] + [g], n)
            == Clause(d, open, [q], n) + [AndKw] + PredicateText(d, g, n + |ClauseParams(d, [q])|)
  {
    hide PredicateText, PredicateParams, Clause, ClauseParams;
    OneClause(d, open, q, n);
    OneClause(d, false, g, n + |PredicateParams(d, q)|);
    ClauseCons(d, open, q, [g], n);
  }

  lemma {:induction false} OneClause(d: Dialect, open: bool, q: Predicate, n: nat)
    ensures ClauseParams(d, [q]) == PredicateParams(d, q)
    ensures Clause(d, open, [q], n) == Joint(open, q) + PredicateText(d, q, n)
  {
    hide PredicateText, PredicateParams, Joint;
    ClauseCons(d, open, q, [], n);
    assert [q] + [] == [q];
  }

  predicate HasOr(qs: seq<Predicate>) {
    Connector(true) in qs
  }

  lemma {:induction false} ConjunctionSnoc(d: Dialect, row: Row, qs: seq<Predicate>, g: Predicate)
    requires !HasOr(qs) && !g.Connector?
    ensures OrAt(qs) == |qs| && OrAt(qs + [g]) == |qs| + 1
    ensures Conjunction(d, row, qs + [g]) == And3(Conjunction(d, row, qs), Meaning(d, row, g))
  {
    hide Meaning;
    var all := qs + [g];
    if qs == [] {
      assert all == [g] && all[1..] == [];
      assert Conjunction(d, row, []) == True;
      assert OrAt([]) == 0;
    } else {
      assert all[1..] == qs[1..] + [g];
      ConjunctionSnoc(d, row, qs[1..], g);
    }
  }

  lemma {:induction false} WellPlacedSnoc(qs: seq<Predicate>, g: Predicate)
    requires WellPlaced(qs) && !g.Connector? && WellFormed(g)
    ensures WellPlaced(qs + [g])
  {
    hide WellFormed;
    var all := qs + [g];
    assert forall i | 0 <= i < |qs| :: all[i] == qs[i];
  }

  lemma {:induction false} ErrorSnoc(d: Dialect, qs: seq<Predicate>, g: Predicate)
    ensures ClauseError(d, qs + [g]) == First(ClauseError(d, qs), PredicateError(d, g))
  {
    hide PredicateError;
    if qs == [] {
      assert qs + [g] == [g] && [g][1..] == [];
    } else {
      assert (qs + [g])[1..] == qs[1..] + [g];
      ErrorSnoc(d, qs[1..], g);
    }
  }

  /** base AND ( clause ), for a base condition qs and filters ps, reads as the list qs
      with the filters as one more group. */
  lemma {:induction false} AppendedReads(d: Dialect, row: Row, qs: seq<Predicate>, ps: seq<Predicate>)
    requires WellPlaced(qs) && WellPlaced(ps) && RowOf(d, row)
    requires ClauseError(d, qs).None? && ClauseError(d, ps).None?
    ensures var args := ClauseParams(d, qs);
            Value3(row, args + ClauseParams(d, ps), Appended(Clause(d, true, qs, 0), Clause(d, true, ps, |args|)))
            == Some(ListMeaning(d, row, qs + [Group(ps)]))
  {
    hide Clause, ClauseParams, ClauseError, ListMeaning, ParseOr, Eval, RowOf;
    var g, args := Group(ps), ClauseParams(d, qs);
    var all := qs + [g];
    assert qs != [] && !qs[|qs| - 1].Connector?;
    assert PredicateParams(d, g) == ClauseParams(d, ps) && PredicateError(d, g) == ClauseError(d, ps);
    assert PredicateText(d, g, |args|) == [LParen] + Clause(d, true, ps, |args|) + [RParen];
    ClauseSnoc(d, true, qs, g, 0);
    ErrorSnoc(d, qs, g);
    WellPlacedSnoc(qs, g);
    assert Appended(Clause(d, true, qs, 0), Clause(d, true, ps, |args|)) == Clause(d, true, all, 0) + [];
    assert Clause(d, true, all, 0) + [] == Clause(d, true, all, 0);
    ListReads(d, row, all, 0, [], ClauseParams(d, all));
  }

  // ----- the meaning -----

  /** A base condition without an OR of its own is narrowed on every row. */
  lemma {:induction false} NarrowsBase(d: Dialect, row: Row, qs: seq<Predicate>, ps: seq<Predicate>)
    requires !HasOr(qs)
    ensures ListMeaning(d, row, qs + [Group(ps)]) == And3(ListMeaning(d, row, qs), ListMeaning(d, row, ps))
  {
    var g := Group(ps);
    ConjunctionSnoc(d, row, qs, g);
    assert FromOr(qs) == [] && FromOr(qs + [g]) == [];
    assert Meaning(d, row, g) == ListMeaning(d, row, ps);
  }

  lemma {:induction false} UpToOr(d: Dialect, row: Row, a: seq<Predicate>, b: seq<Predicate>)
    ensures OrAt(a + [Connector(true)] + b) == OrAt(a)
    ensures Conjunction(d, row, a + [Connector(true)] + b) == Conjunction(d, row, a)
  {
    hide Meaning;
    var all := a + [Connector(true)] + b;
    if a != [] {
      assert all[0] == a[0] && all[1..] == a[1..] + [Connector(true)] + b;
      UpToOr(d, row, a[1..], b);
    }
  }

  /** OR joins two lists, wherever it stands. */
  lemma {:induction false} OrSplits(d: Dialect, row: Row, a: seq<Predicate>, b: seq<Predicate>)
    ensures ListMeaning(d, row, a + [Connector(true)] + b) == Or3(ListMeaning(d, row, a), ListMeaning(d, row, b))
    decreases |a|
  {
    hide Conjunction, OrAt;
    var all := a + [Connector(true)] + b;
    UpToOr(d, row, a, b);
    var j := OrAt(a);
    if j == |a| {
      assert FromOr(a) == [] && FromOr(all)[1..] == b;
    } else {
      var rest := FromOr(a)[1..];
      assert FromOr(all)[1..] == rest + [Connector(true)] + b;
      OrSplits(d, row, rest, b);
    }
  }

  /** With an OR in the base only what follows its last OR is narrowed. */
  lemma {:induction false} BaseWithOr(d: Dialect, row: Row, a: seq<Predicate>, b: seq<Predicate>, ps: seq<Predicate>)
    requires !HasOr(b)
    ensures ListMeaning(d, row, a + [Connector(true)] + b + [Group(ps)])
         == Or3(ListMeaning(d, row, a), And3(ListMeaning(d, row, b), ListMeaning(d, row, ps)))
  {
    hide ListMeaning;
    assert a + [Connector(true)] + b + [Group(ps)] == a + [Connector(true)] + (b + [Group(ps)]);
    OrSplits(d, row, a, b + [Group(ps)]);
    NarrowsBase(d, row, b, ps);
  }

  /** Position of the last OR of qs. */
  function LastOrAt(qs: seq<Predicate>): (j: nat)
    requires HasOr(qs)
    ensures j < |qs| && qs[j] == Connector(true) && !HasOr(qs[j + 1..])
  {
    var j := |qs| - 1;
    if qs[j] == Connector(true) then j
    else
      var i := LastOrAt(qs[..j]);
      assert qs[i + 1..] == qs[..j][i + 1..] + [qs[j]];
      i
  }

  /** A query returns the rows on which its condition is true. */
  ghost predicate Returns(d: Dialect, row: Row, qs: seq<Predicate>) {
    ListMeaning(d, row, qs) == True
  }

  /** Filters let a row pass that they reject: some alternative before the base's last OR
      accepts it. */
  ghost predicate Escapes(d: Dialect, row: Row, qs: seq<Predicate>, ps: seq<Predicate>) {
    HasOr(qs) && Returns(d, row, qs[..LastOrAt(qs)]) && !Returns(d, row, ps)
  }

  /** Which rows are returned, for every base: those that base and filters both accept,
      exactly when the row does not escape. */
  lemma {:induction false} NarrowsExactly(d: Dialect, row: Row, qs: seq<Predicate>, ps: seq<Predicate>)
    ensures (Returns(d, row, qs + [Group(ps)]) <==> Returns(d, row, qs) && Returns(d, row, ps))
            <==> !Escapes(d, row, qs, ps)
    ensures Returns(d, row, qs + [Group(ps)]) && !Returns(d, row, ps) <==> Escapes(d, row, qs, ps)
  {
    hide ListMeaning;
    if HasOr(qs) {
      var j := LastOrAt(qs);
      var a, b := qs[..j], qs[j + 1..];
      assert qs == a + [Connector(true)] + b;
      OrSplits(d, row, a, b);
      BaseWithOr(d, row, a, b, ps);
    } else {
      NarrowsBase(d, row, qs, ps);
    }
  }

  // ----- a row that escapes -----

  /** a = 1 OR b = 1, with the filter c = 1 appended, returns a row the filter rejects. */
  lemma {:induction false} FilterPassedOver(d: Dialect)
    ensures var qs, ps := [Is1("a"), Connector(true), Is1("b")], [Is1("c")];
            var args := ClauseParams(d, qs);
            && Value3(RowA(d), args + ClauseParams(d, ps),
                      Appended(Clause(d, true, qs, 0), Clause(d, true, ps, |args|))) == Some(True)
            && ListMeaning(d, RowA(d), ps) == False
  {
    hide Clause, ClauseParams, ClauseError, ListMeaning, Value3, RowOf, WellPlaced;
    var a, b, ps := [Is1("a")], [Is1("b")], [Is1("c")];
    var qs := [Is1("a"), Connector(true), Is1("b")];
    SmallClause(d, "a");
    SmallClause(d, "b");
    SmallClause(d, "c");
    RowAIsRow(d);
    PairIsPlaced(d);
    AppendedReads(d, RowA(d), qs, ps);
    assert qs == a + [Connector(true)] + b;
    BaseWithOr(d, RowA(d), a, b, ps);
  }

  lemma {:induction false} PairIsPlaced(d: Dialect)
    ensures var qs := [Is1("a"), Connector(true), Is1("b")]; WellPlaced(qs) && ClauseError(d, qs).None?
  {
    var qs := [Is1("a"), Connector(true), Is1("b")];
    SmallClause(d, "a");
    SmallClause(d, "b");
    ErrorSnoc(d, [Is1("a")], Connector(true));
    ErrorSnoc(d, [Is1("a"), Connector(true)], Is1("b"));
    assert qs == [Is1("a"), Connector(true)] + [Is1("b")]
           && [Is1("a"), Connector(true)] == [Is1("a")] + [Connector(true)];
    assert ClauseError(d, [Is1("b")]) == PredicateError(d, Is1("b")) by { assert [Is1("b")][1..] == []; }
  }
}
