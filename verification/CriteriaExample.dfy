/**
  A row and conditions on it, small enough to compute with.
 */
module CriteriaExample {
  import opened SqlText
  import opened Criteria
  import opened CriteriaMeaning
  import Like

  function Is1(column: string): Predicate {
    Cond(column, false, Compare(Eq), Num(1), false)
  }

  function Compared(op: CmpOp, c: string): Tri {
    if op == Ne then Of(c != "a") else Of(c == "a")
  }

  /** A row with column a equal to everything, and no other column equal to anything. */
  function RowA(d: Dialect): Row {
    Row((op, c, v) => Compared(op, c),
        (t, c) => Unknown, c => None, f => Like.Matcher(d.extra, (s, x) => false, (x, y) => x == y),
        (f, c, v) => Unknown, (c, v) => Unknown, (s, vs) => Unknown)
  }

  lemma {:induction false} RowAIsRow(d: Dialect)
    ensures RowOf(d, RowA(d))
  {
    var row := RowA(d);
    forall c: string, v: Value
      ensures row.compare(Ne, c, v) == Not3(row.compare(Eq, c, v))
    {
      assert row.compare(Ne, c, v) == Compared(Ne, c) && row.compare(Eq, c, v) == Compared(Eq, c);
    }
  }

  lemma {:induction false} SmallClause(d: Dialect, c: string)
    requires c == "a" || c == "b" || c == "c"
    ensures ClauseError(d, [Is1(c)]).None? && WellPlaced([Is1(c)])
    ensures ListMeaning(d, RowA(d), [Is1(c)]) == Of(c == "a")
  {
    var p := Is1(c);
    assert c[1..] == "" && NameRun("") == 0 && Segment(c) == 1;
    assert PredicateError(d, p).None?;
    assert [p][1..] == [];
    assert ClauseError(d, []).None? && OrAt([]) == 0;
    assert Conjunction(d, RowA(d), []) == True;
    assert FromOr([p]) == [];
    assert RowA(d).compare(Eq, c, Num(1)) == Compared(Eq, c);
    assert Meaning(d, RowA(d), p) == ConditionMeaning(d, RowA(d), p) == Of(c == "a");
    assert Conjunction(d, RowA(d), [p]) == And3(Of(c == "a"), True);
  }

  /** a = 1, with a parameter before it, is accepted and true on the row; b = 1 is false. */
  lemma {:induction false} CompiledExample(d: Dialect, arg: Value)
    ensures forall c | c in {"a", "b"} ::
              var b := BuiltAfter([arg], [Is1(c)], d);
              b.Accepted? && Value3(RowA(d), b.params, b.text) == Some(Of(c == "a"))
  {
    hide ListMeaning, WellPlaced, ClauseError, Clause, ClauseParams, RowOf, Value3;
    RowAIsRow(d);
    SmallClause(d, "a");
    SmallClause(d, "b");
    CompiledMeaning(d, RowA(d), [arg], [Is1("a")]);
    CompiledMeaning(d, RowA(d), [arg], [Is1("b")]);
  }
}
