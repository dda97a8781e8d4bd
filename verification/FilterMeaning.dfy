/**
  What a filter request means, and what Filter.Build guarantees about the query it
  returns: the clause reads back with the meaning of the request; it names only mapped
  columns; its parameters are bounded.
 */
module FilterMeaning {
  import opened SqlText
  import opened Criteria
  import opened CriteriaMeaning
  import opened CriteriaText
  import opened Filter

  // ----- meaning of a request -----

  /** What a comparison says of a column and a value. */
  function Compares(row: Row, column: string, c: Condition, v: Value): Tri {
    match c
    case Equal => row.compare(Eq, column, v)
    case NotEqual => row.compare(Ne, column, v)
    case Less => row.compare(Lt, column, v)
    case LessOrEqual => row.compare(Le, column, v)
    case Greater => row.compare(Gt, column, v)
    case GreaterOrEqual => row.compare(Ge, column, v)
    case _ => Unknown
  }

  /** The comparison holds for some v of vs. */
  function AnyCompares(row: Row, column: string, c: Condition, vs: seq<Value>): Tri {
    if vs == [] then False
    else Or3(Compares(row, column, c, vs[0]), AnyCompares(row, column, c, vs[1..]))
  }

  /** A text "start|end" of two times. */
  predicate IsRange(conv: Conversions, v: Value) {
    v.Str? && '|' in v.s && conv.dates(v.s).Some?
  }

  /** A value that is neither text nor number stands for its printed text. */
  function AsWritten(conv: Conversions, v: Value): Value {
    if v.Str? || v.Num? || v.Flt? then v else Str(conv.show(v))
  }

  /** The text s occurs in the column, or does not, with or without regard to case. */
  ghost function TextMeaning(d: Dialect, row: Row, column: string, c: Condition, s: string): Tri {
    match c
    case ContainsText => CriteriaMeaning.ContainsText(row, column, d.foldLike, s)
    case NotContainsText => Not3(CriteriaMeaning.ContainsText(row, column, d.foldLike, s))
    case LikeText => CriteriaMeaning.ContainsText(row, column, false, s)
    case NotLikeText => Not3(CriteriaMeaning.ContainsText(row, column, false, s))
    case _ => Unknown
  }

  predicate IsTextual(c: Condition) {
    c in {ContainsText, NotContainsText, LikeText, NotLikeText}
  }

  /** A condition tested against one value. */
  ghost function ScalarMeaning(d: Dialect, row: Row, conv: Conversions, column: string, c: Condition, v: Value): Tri {
    var w := AsWritten(conv, v);
    if IsRange(conv, v) then
      var (from, to) := conv.dates(v.s).value;
      And3(row.compare(Ge, column, Time(from)), row.compare(Le, column, Time(to)))
    else if IsTextual(c) && w.Str? then TextMeaning(d, row, column, c, w.s)
    else Compares(row, column, c, w)
  }

  /** A condition tested against a list of two or more values. */
  function ManyMeaning(row: Row, column: string, c: Condition, vs: seq<Value>): Tri
    requires |vs| >= 2
  {
    if c.Range? then And3(row.compare(Ge, column, vs[0]), row.compare(Le, column, vs[1]))
    else if c.InList? || c.Equal? then AnyEqual(row, column, vs)
    else if c.NotInList? || c.NotEqual? then AllDiffer(row, column, vs)
    else AnyCompares(row, column, c, vs)
  }

  /** IN and NOT IN of a one-element list test that element. */
  function OneOf(c: Condition): Condition {
    if c.InList? then Equal else if c.NotInList? then NotEqual else c
  }

  ghost function ColumnMeaning(d: Dialect, row: Row, conv: Conversions, column: string, c: Condition, v: Value): Tri {
    if c.NotNull? then row.test(IsNotNull, column)
    else if c.Null? || v.Nil? then row.test(IsNull, column)
    else if v.List? then
      if |v.items| >= 2 then ManyMeaning(row, column, c, v.items)
      else if |v.items| == 1 then ScalarMeaning(d, row, conv, column, OneOf(c), v.items[0])
      else Unknown
    else ScalarMeaning(d, row, conv, column, c, v)
  }

  ghost function EntryMeaning(d: Dialect, row: Row, m: Mapping, conv: Conversions, f: Filter): Tri
    requires f.field in m
  {
    var field := m[f.field];
    if f.condition.Search? then
      if field.search.Some? && f.value.Str? then
        var s := field.search.value(f.value.s);
        row.search(s, if d.search(s).Some? then d.search(s).value else [])
      else Unknown
    else ColumnMeaning(d, row, conv, field.column, f.condition, f.value)
  }

  /** A list of values and separators: the disjunction, over the parts between OR's, of
      the conjunction of their values. */
  datatype Item = Sep(or: bool) | Val(t: Tri)

  function ItemConjunction(xs: seq<Item>): Tri {
    if xs == [] || xs[0] == Sep(true) then True
    else if xs[0].Sep? then ItemConjunction(xs[1..])
    else And3(xs[0].t, ItemConjunction(xs[1..]))
  }

  function ItemOrAt(xs: seq<Item>): (j: nat)
    ensures j <= |xs|
  {
    if xs == [] || xs[0] == Sep(true) then 0 else 1 + ItemOrAt(xs[1..])
  }

  function ItemMeaning(xs: seq<Item>): Tri {
    var j := ItemOrAt(xs);
    if j == |xs| then ItemConjunction(xs) else Or3(ItemConjunction(xs), ItemMeaning(xs[j + 1..]))
  }

  ghost function RequestItem(d: Dialect, row: Row, m: Mapping, conv: Conversions, f: Option<Filter>): Item {
    if f.None? then Val(Unknown)
    else match f.value.logical
      case AndSign => Sep(false)
      case OrSign => Sep(true)
      case OtherSign(_) => Val(Unknown)
      case NoSign => Val(if f.value.field in m then EntryMeaning(d, row, m, conv, f.value) else Unknown)
  }

  ghost function RequestItems(d: Dialect, row: Row, m: Mapping, conv: Conversions, fs: seq<Option<Filter>>): seq<Item> {
    seq(|fs|, i requires 0 <= i < |fs| => RequestItem(d, row, m, conv, fs[i]))
  }

  ghost function RequestMeaning(d: Dialect, row: Row, m: Mapping, conv: Conversions, fs: seq<Option<Filter>>): Tri {
    ItemMeaning(RequestItems(d, row, m, conv, fs))
  }

  // ----- predicate lists as item lists -----

  ghost function PredicateItems(d: Dialect, row: Row, ps: seq<Predicate>): seq<Item> {
    seq(|ps|, i requires 0 <= i < |ps| => if ps[i].Connector? then Sep(ps[i].or) else Val(Meaning(d, row, ps[i])))
  }

  lemma {:induction false} ItemsConjunction(d: Dialect, row: Row, ps: seq<Predicate>)
    ensures Conjunction(d, row, ps) == ItemConjunction(PredicateItems(d, row, ps))
    ensures OrAt(ps) == ItemOrAt(PredicateItems(d, row, ps))
  {
    hide Meaning;
    var xs := PredicateItems(d, row, ps);
    if ps != [] {
      assert xs[1..] == PredicateItems(d, row, ps[1..]);
      ItemsConjunction(d, row, ps[1..]);
    }
  }

  lemma {:induction false} ItemsMeaning(d: Dialect, row: Row, ps: seq<Predicate>)
    ensures ListMeaning(d, row, ps) == ItemMeaning(PredicateItems(d, row, ps))
    decreases |ps|
  {
    hide Meaning, Conjunction, ItemConjunction;
    var xs := PredicateItems(d, row, ps);
    ItemsConjunction(d, row, ps);
    var j := OrAt(ps);
    if j < |ps| {
      assert xs[j + 1..] == PredicateItems(d, row, ps[j + 1..]);
      assert FromOr(ps)[1..] == ps[j + 1..];
      ItemsMeaning(d, row, ps[j + 1..]);
    }
  }

  // ----- one entry -----

  /** field op v0 OR field op v1 … */
  lemma {:induction false} OrPartsMeaning(d: Dialect, row: Row, field: string, c: Condition, op: CmpOp, vs: seq<Value>)
    requires vs != [] && forall v :: Compares(row, field, c, v) == row.compare(op, field, v)
    ensures WellPlaced(OrParts(field, op, vs))
    ensures ListMeaning(d, row, OrParts(field, op, vs)) == AnyCompares(row, field, c, vs)
  {
    hide Compares;
    var ps := OrParts(field, op, vs);
    if |vs| == 1 {
      assert ps == [Compared(field, op, vs[0])];
      assert Conjunction(d, row, ps[1..]) == True;
      assert OrAt(ps[1..]) == 0;
      assert FromOr(ps) == [];
      assert WellFormed(ps[0]);
      assert Conjunction(d, row, ps) == And3(Meaning(d, row, ps[0]), True);
      assert AnyCompares(row, field, c, vs[1..]) == False;
    } else {
      var rest := OrParts(field, op, vs[1..]);
      assert ps[2..] == rest;
      OrPartsMeaning(d, row, field, c, op, vs[1..]);
      WellPlacedDrop(ps, 2);
      assert ps[1..][0] == Connector(true);
      assert OrAt(ps[1..]) == 0;
      assert OrAt(ps) == 1;
      assert FromOr(ps)[1..] == rest;
      assert Conjunction(d, row, ps[1..]) == True;
      assert Conjunction(d, row, ps) == And3(Meaning(d, row, ps[0]), True);
    }
  }

  /** A scalar condition is one well-formed predicate with its meaning. */
  lemma {:induction false} ScalarResolves(d: Dialect, row: Row, conv: Conversions, field: string, c: Condition,
                                          v: Value)
    requires Scalar(conv, field, c, v).Some? && IsIdentifier(field)
    ensures var p := Scalar(conv, field, c, v).value;
            && p.Cond? && p.field == field && !p.raw && ConditionError(d, p).None?
            && |ConditionParams(d, p)| <= 2
            && Meaning(d, row, p) == ScalarMeaning(d, row, conv, field, c, v)
  {
    hide Scalar, ScalarMeaning, Meaning, ConditionError, ConditionParams;
    ScalarShape(d, conv, field, c, v);
    ScalarSame(d, row, conv, field, c, v);
  }

  lemma {:induction false} ScalarShape(d: Dialect, conv: Conversions, field: string, c: Condition, v: Value)
    requires Scalar(conv, field, c, v).Some? && IsIdentifier(field)
    ensures var p := Scalar(conv, field, c, v).value;
            && p.Cond? && p.field == field && !p.raw && ConditionError(d, p).None?
            && |ConditionParams(d, p)| <= 2
  {
    hide IsIdentifier;
  }

  lemma {:induction false} ScalarSame(d: Dialect, row: Row, conv: Conversions, field: string, c: Condition, v: Value)
    requires Scalar(conv, field, c, v).Some?
    ensures Meaning(d, row, Scalar(conv, field, c, v).value) == ScalarMeaning(d, row, conv, field, c, v)
  {
    hide IsIdentifier, ListMeaning, CriteriaMeaning.ContainsText, AnyEqual, AllDiffer;
    if IsRange(conv, v) {
      assert Scalar(conv, field, c, v).value == BetweenTimes(field, conv.dates(v.s).value.0, conv.dates(v.s).value.1);
    } else {
      WrittenSame(d, row, conv, field, c, v);
    }
  }

  lemma {:induction false} WrittenSame(d: Dialect, row: Row, conv: Conversions, field: string, c: Condition, v: Value)
    requires Scalar(conv, field, c, v).Some? && !IsRange(conv, v)
    ensures Meaning(d, row, Scalar(conv, field, c, v).value) == ScalarMeaning(d, row, conv, field, c, v)
  {
    hide IsIdentifier, ListMeaning, CriteriaMeaning.ContainsText, AnyEqual, AllDiffer;
  }

  lemma {:induction false} SliceResolves(d: Dialect, row: Row, conv: Conversions, field: string, c: Condition,
                                         vs: seq<Value>)
    requires |vs| >= 2 && Slice(conv, field, c, vs).Some? && IsIdentifier(field)
    ensures var p := Slice(conv, field, c, vs).value;
            && !p.Connector? && WellFormed(p) && Meaning(d, row, p) == ManyMeaning(row, field, c, vs)
  {
    if !(c.Range? || c.InList? || c.Equal? || c.NotInList? || c.NotEqual?) {
      OrPartsMeaning(d, row, field, c, ComparisonOf(c).value, vs);
    }
  }

  /** Every entry that resolves is well formed and means what the request says. */
  lemma {:induction false} EntryResolves(d: Dialect, row: Row, m: Mapping, conv: Conversions, l: Limits,
                                         f: Option<Filter>)
    requires Resolved1(m, conv, l, f).Some?
    ensures var p := Resolved1(m, conv, l, f).value;
            && WellFormed(p)
            && p.Connector? == IsSign(f)
            && RequestItem(d, row, m, conv, f) == if p.Connector? then Sep(p.or) else Val(Meaning(d, row, p))
  {
    hide Slice, Scalar, ManyMeaning, ScalarMeaning, WithinLimits, IsIdentifier;
    var g := f.value;
    if g.logical.NoSign? && !g.condition.Search? && !g.condition.Null? && !g.condition.NotNull? && !g.value.Nil? {
      var field := m[g.field].column;
      if !g.value.List? {
        ScalarResolves(d, row, conv, field, g.condition, g.value);
      } else {
        OneResolves(d, row, conv, field, g.condition, g.value.items);
      }
    }
  }

  lemma {:induction false} OneResolves(d: Dialect, row: Row, conv: Conversions, field: string, c: Condition,
                                       vs: seq<Value>)
    requires Slice(conv, field, c, vs).Some? && IsIdentifier(field)
    ensures vs != []
    ensures var p := Slice(conv, field, c, vs).value;
            && !p.Connector? && WellFormed(p)
            && Meaning(d, row, p) == if |vs| >= 2 then ManyMeaning(row, field, c, vs)
                                     else ScalarMeaning(d, row, conv, field, OneOf(c), vs[0])
  {
    hide ManyMeaning, ScalarMeaning, Scalar, Meaning, WellFormed, IsIdentifier;
    if |vs| >= 2 {
      SliceResolves(d, row, conv, field, c, vs);
    } else if |vs| == 1 {
      ScalarResolves(d, row, conv, field, OneOf(c), vs[0]);
      CondIsWellFormed(Scalar(conv, field, OneOf(c), vs[0]).value);
    }
  }

  lemma {:induction false} CondIsWellFormed(p: Predicate)
    requires p.Cond?
    ensures WellFormed(p)
  {
  }

  // ----- the whole request -----

  /** With no bad entry, the predicates are the entries, one by one. */
  lemma {:induction false} PredicatesAre(m: Mapping, conv: Conversions, l: Limits, fs: seq<Option<Filter>>, from: nat)
    requires BadEntries(m, conv, l, fs, from) == []
    ensures var ps := Predicates(m, conv, l, fs);
            && |ps| == |fs|
            && forall i | 0 <= i < |fs| :: Resolved1(m, conv, l, fs[i]) == Some(ps[i])
    decreases |fs|
  {
    hide Resolved1;
    if fs != [] {
      PredicatesAre(m, conv, l, fs[1..], from + 1);
      var ps := Predicates(m, conv, l, fs);
      assert forall i | 0 < i < |fs| :: fs[i] == fs[1..][i - 1] && ps[i] == ps[1..][i - 1];
    }
  }

  /** The predicates of an accepted request are well placed and mean the request. */
  lemma {:induction false} RequestResolves(d: Dialect, row: Row, m: Mapping, conv: Conversions, l: Limits,
                                           fs: seq<Option<Filter>>)
    requires fs != [] && SignsPlaced(fs) && BadEntries(m, conv, l, fs, 0) == []
    ensures WellPlaced(Predicates(m, conv, l, fs))
    ensures ListMeaning(d, row, Predicates(m, conv, l, fs)) == RequestMeaning(d, row, m, conv, fs)
  {
    hide Resolved1, RequestItem, Meaning, WellFormed, ListMeaning, ItemMeaning;
    PredicatesAre(m, conv, l, fs, 0);
    var ps := Predicates(m, conv, l, fs);
    forall i | 0 <= i < |fs|
      ensures WellFormed(ps[i]) && ps[i].Connector? == IsSign(fs[i])
      ensures RequestItem(d, row, m, conv, fs[i])
           == if ps[i].Connector? then Sep(ps[i].or) else Val(Meaning(d, row, ps[i]))
    {
      EntryResolves(d, row, m, conv, l, fs[i]);
    }
    assert WellPlaced(ps);
    ItemsMeaning(d, row, ps);
    assert PredicateItems(d, row, ps) == RequestItems(d, row, m, conv, fs);
  }

  /** The clause of an accepted request. */
  function ClauseOf(args: seq<Value>, fs: seq<Option<Filter>>, m: Mapping, d: Dialect, conv: Conversions,
                    l: Limits)
    : seq<Token>
  {
    Clause(d, true, Predicates(m, conv, l, fs), |args|)
  }

  /** An accepted request: the query is base AND ( clause ), the parameters are args
      followed by those of the clause, and on every row the parenthesised clause reads as
      one operand, whatever follows, whose value is the meaning of the request. */
  lemma {:induction false} AcceptedRequest(base: seq<Token>, args: seq<Value>, fs: seq<Option<Filter>>, m: Mapping,
                                           d: Dialect, conv: Conversions, l: Limits, row: Row, k: seq<Token>)
    requires fs != [] && QueryOf(base, args, fs, m, d, conv, l).Query? && RowOf(d, row) && Follows(k)
    ensures var r, clause := QueryOf(base, args, fs, m, d, conv, l), ClauseOf(args, fs, m, d, conv, l);
            && r.text == Appended(base, clause)
            && args <= r.params
            && Value3(row, r.params, clause) == Some(RequestMeaning(d, row, m, conv, fs))
            && ReadsAs(ParsePrimary([LParen] + clause + [RParen] + k), row, r.params, k,
                       RequestMeaning(d, row, m, conv, fs))
            && Placeholders(clause) == Numbers(|args|, |r.params| - |args|)
  {
    hide BadEntries, Predicates, Clause, ClauseParams, ClauseError, ListMeaning, RequestMeaning, WellPlaced, ParseOr,
         ParsePrimary, ReadsAs, Eval, SignsPlaced, RowOf;
    var r, ps := QueryOf(base, args, fs, m, d, conv, l), Predicates(m, conv, l, fs);
    RequestResolves(d, row, m, conv, l, fs);
    AcceptedClause(d, row, args, ps, k);
    ClauseNumbers(d, true, ps, |args|);
  }

  lemma {:induction false} AcceptedClause(d: Dialect, row: Row, args: seq<Value>, ps: seq<Predicate>, k: seq<Token>)
    requires ClauseError(d, ps).None? && WellPlaced(ps) && RowOf(d, row) && Follows(k)
    ensures var all, clause := args + ClauseParams(d, ps), Clause(d, true, ps, |args|);
            && Value3(row, all, clause) == Some(ListMeaning(d, row, ps))
            && ReadsAs(ParsePrimary([LParen] + clause + [RParen] + k), row, all, k, ListMeaning(d, row, ps))
  {
    hide Clause, ClauseParams, ClauseError, ListMeaning, WellPlaced, ParseOr, ParsePrimary, Eval, RowOf;
    var all := args + ClauseParams(d, ps);
    assert all[|args|..|args| + |ClauseParams(d, ps)|] == ClauseParams(d, ps);
    ListReads(d, row, ps, |args|, [], all);
    assert Clause(d, true, ps, |args|) + [] == Clause(d, true, ps, |args|);
    assert PredicateText(d, Group(ps), |args|) == [LParen] + Clause(d, true, ps, |args|) + [RParen];
    OperandReads(d, row, Group(ps), |args|, k, all);
  }

  // ----- columns -----

  predicate MappedIn(m: Mapping, fs: seq<Option<Filter>>, column: string) {
    exists i | 0 <= i < |fs| ::
      fs[i].Some? && fs[i].value.field in m && m[fs[i].value.field].column == column
  }

  lemma {:induction false} OrPartsFields(field: string, op: CmpOp, vs: seq<Value>)
    ensures Fields(OrParts(field, op, vs)) <= {field}
  {
    var ps := OrParts(field, op, vs);
    if |vs| == 1 {
      assert Fields(ps[1..]) == {};
    } else if |vs| > 1 {
      OrPartsFields(field, op, vs[1..]);
      assert ps[1..][1..] == OrParts(field, op, vs[1..]);
      assert Fields(ps[1..]) == Fields(ps[1..][1..]);
    }
  }

  /** The fields of one entry: its mapped column, which is a column reference. */
  lemma {:induction false} EntryFields(m: Mapping, conv: Conversions, l: Limits, f: Option<Filter>)
    requires Resolved1(m, conv, l, f).Some?
    ensures Fields([Resolved1(m, conv, l, f).value]) <=
              if f.value.field in m && IsIdentifier(m[f.value.field].column) then {m[f.value.field].column} else {}
  {
    hide IsIdentifier, WithinLimits;
    var p, g := Resolved1(m, conv, l, f).value, f.value;
    assert Fields([p][1..]) == {};
    if p.Group? {
      var field := m[g.field].column;
      OrPartsFields(field, ComparisonOf(g.condition).value, g.value.items);
    }
  }

  lemma {:induction false} FieldsCons(p: Predicate, ps: seq<Predicate>)
    ensures Fields([p] + ps) == Fields([p]) + Fields(ps)
  {
    assert ([p] + ps)[1..] == ps && [p][1..] == [];
    assert Fields([]) == {};
  }

  lemma {:induction false} RequestFields(m: Mapping, conv: Conversions, l: Limits, fs: seq<Option<Filter>>)
    ensures forall c | c in Fields(Predicates(m, conv, l, fs)) :: MappedIn(m, fs, c) && IsIdentifier(c)
  {
    hide Resolved1, IsIdentifier;
    if fs != [] {
      RequestFields(m, conv, l, fs[1..]);
      var p, rest := Resolved1(m, conv, l, fs[0]), Predicates(m, conv, l, fs[1..]);
      if p.Some? {
        EntryResolvesSome(m, conv, l, fs[0]);
        EntryFields(m, conv, l, fs[0]);
        FieldsCons(p.value, rest);
        assert Predicates(m, conv, l, fs) == [p.value] + rest;
      } else {
        assert Predicates(m, conv, l, fs) == rest;
      }
      forall c | c in Fields(Predicates(m, conv, l, fs)) ensures MappedIn(m, fs, c) && IsIdentifier(c) {
        if c in Fields(rest) {
          var i :| 0 <= i < |fs[1..]| && fs[1..][i].Some? && fs[1..][i].value.field in m
            && m[fs[1..][i].value.field].column == c;
          assert fs[i + 1] == fs[1..][i];
        } else {
          assert fs[0].value.field in m && m[fs[0].value.field].column == c;
        }
      }
    }
  }

  /** The clause names only columns that the mapping gives to names of the request, each
      of them a column reference. */
  lemma {:induction false} OnlyMappedColumns(args: seq<Value>, fs: seq<Option<Filter>>, m: Mapping, d: Dialect,
                                             conv: Conversions, l: Limits)
    ensures forall c | c in Columns(ClauseOf(args, fs, m, d, conv, l)) :: MappedIn(m, fs, c) && IsIdentifier(c)
  {
    hide Predicates, Clause, Fields, MappedIn, IsIdentifier;
    ClauseColumns(d, true, Predicates(m, conv, l, fs), |args|);
    RequestFields(m, conv, l, fs);
  }

  // ----- number of parameters -----

  function Most(l: Limits): nat {
    if l.maxInValues > 2 then l.maxInValues else 2
  }

  predicate Searches(fs: seq<Option<Filter>>) {
    exists i | 0 <= i < |fs| :: fs[i].Some? && fs[i].value.condition.Search?
  }

  lemma {:induction false} OrPartsParams(d: Dialect, field: string, op: CmpOp, vs: seq<Value>)
    ensures |ClauseParams(d, OrParts(field, op, vs))| == |vs|
  {
    var ps := OrParts(field, op, vs);
    if |vs| == 1 {
      assert ClauseParams(d, ps[1..]) == [];
    } else if |vs| > 1 {
      OrPartsParams(d, field, op, vs[1..]);
      assert ps[1..][1..] == OrParts(field, op, vs[1..]);
      assert ClauseParams(d, ps[1..]) == ClauseParams(d, ps[1..][1..]);
    }
  }

  lemma {:induction false} EntryParams(d: Dialect, m: Mapping, conv: Conversions, l: Limits, f: Option<Filter>)
    requires Resolved1(m, conv, l, f).Some? && !f.value.condition.Search?
    ensures |PredicateParams(d, Resolved1(m, conv, l, f).value)| <= if IsSign(f) then 0 else Most(l)
  {
    hide IsIdentifier;
    var p, g := Resolved1(m, conv, l, f).value, f.value;
    if p.Group? {
      assert |g.value.items| <= l.maxInValues;
      assert p == Group(OrParts(m[g.field].column, ComparisonOf(g.condition).value, g.value.items));
      OrPartsParams(d, m[g.field].column, ComparisonOf(g.condition).value, g.value.items);
    }
  }

  /** A request without SEARCH adds at most max(2, maxInValues) parameters a condition. */
  lemma {:induction false} BoundedParams(d: Dialect, m: Mapping, conv: Conversions, l: Limits, fs: seq<Option<Filter>>)
    requires !Searches(fs)
    ensures |ClauseParams(d, Predicates(m, conv, l, fs))| <= ConditionCount(fs) * Most(l)
  {
    hide Resolved1, PredicateParams, ClauseParams;
    if fs == [] {
      NoParams(d);
    } else {
      assert forall i | 0 <= i < |fs[1..]| :: fs[1..][i] == fs[i + 1];
      BoundedParams(d, m, conv, l, fs[1..]);
      var p, rest := Resolved1(m, conv, l, fs[0]), Predicates(m, conv, l, fs[1..]);
      if p.Some? {
        EntryResolvesSome(m, conv, l, fs[0]);
        EntryParams(d, m, conv, l, fs[0]);
        assert Predicates(m, conv, l, fs) == [p.value] + rest;
        ClauseCons(d, true, p.value, rest, 0);
      } else {
        assert Predicates(m, conv, l, fs) == rest;
      }
      var n := ConditionCount(fs[1..]);
      assert (n + 1) * Most(l) == n * Most(l) + Most(l);
    }
  }

  lemma {:induction false} NoParams(d: Dialect)
    ensures ClauseParams(d, []) == []
  {
  }

  lemma {:induction false} EntryResolvesSome(m: Mapping, conv: Conversions, l: Limits, f: Option<Filter>)
    requires Resolved1(m, conv, l, f).Some?
    ensures f.Some?
  {
  }

  /** Conditions accepted in one query never add more than maxFilters times that many. */
  lemma {:induction false} BoundedQuery(base: seq<Token>, args: seq<Value>, fs: seq<Option<Filter>>, m: Mapping,
                                        d: Dialect, conv: Conversions, l: Limits)
    requires !Searches(fs) && QueryOf(base, args, fs, m, d, conv, l).Query?
    ensures |QueryOf(base, args, fs, m, d, conv, l).params| - |args| <= l.maxFilters * Most(l)
  {
    hide BadEntries, Predicates, ClauseParams, ClauseError, Clause, SignsPlaced, ConditionCount, Searches;
    if fs != [] {
      BoundedParams(d, m, conv, l, fs);
      Scaled(ConditionCount(fs), l.maxFilters, Most(l));
    }
  }

  lemma {:induction false} Scaled(a: nat, b: nat, k: nat)
    requires a <= b
    ensures a * k <= b * k
  {
  }
}
