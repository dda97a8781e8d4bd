/**
  Which filter requests are accepted, said of the request: the names of the allowlist, the
  conditions a name and a value admit, the bounds, and where AND and OR may stand.
 */
module FilterAccepts {
  import opened SqlText
  import opened Criteria
  import opened CriteriaLeaves
  import opened Filter
  import opened FilterMeaning

  // ----- one entry -----

  predicate IsComparison(c: Condition) {
    c in {Equal, NotEqual, Less, LessOrEqual, Greater, GreaterOrEqual}
  }

  /** The condition can be tested against the value: a range of times only with BETWEEN, a
      number only by comparison. */
  predicate SuitsOne(conv: Conversions, c: Condition, v: Value) {
    if IsRange(conv, v) then c.Range?
    else IsComparison(c) || (IsTextual(c) && AsWritten(conv, v).Str?)
  }

  /** The condition can be tested against the list: BETWEEN against two times. */
  predicate SuitsMany(c: Condition, vs: seq<Value>) {
    if c.Range? then |vs| == 2 && vs[0].Time? && vs[1].Time?
    else c.InList? || c.NotInList? || IsComparison(c)
  }

  predicate Suits(conv: Conversions, c: Condition, v: Value) {
    || c.Null? || c.NotNull? || v.Nil?
    || (v.List? && |v.items| >= 2 && SuitsMany(c, v.items))
    || (v.List? && |v.items| == 1 && SuitsOne(conv, OneOf(c), v.items[0]))
    || (!v.List? && SuitsOne(conv, c, v))
  }

  /** The condition as the allowlist sees it: no condition and no value ask for NULL. */
  function Asked(f: Filter): Condition {
    if f.value.Nil? && f.condition.Empty? then Null else f.condition
  }

  predicate Permits(field: Field, c: Condition) {
    field.ops == [] || c in field.ops
  }

  /** At most so many values, and for a text condition or a search none of them too long. */
  predicate InBounds(l: Limits, f: Filter) {
    && (f.value.List? ==> |f.value.items| <= l.maxInValues)
    && (IsTextual(f.condition) || f.condition.Search? ==>
          (f.value.Str? ==> |f.value.s| <= l.maxLikeLength) &&
          (f.value.List? ==> forall v | v in f.value.items :: v.Str? ==> |v.s| <= l.maxLikeLength))
  }

  /** A condition that the allowlist and the bounds admit, with a value that suits it. */
  ghost predicate AdmitsCondition(m: Mapping, conv: Conversions, l: Limits, f: Filter) {
    && InBounds(l, f) && f.field in m
    && var field := m[f.field];
       && Permits(field, Asked(f))
       && if f.condition.Search? then field.search.Some? && f.value.Str?
          else IsColumn(field.column) && Suits(conv, f.condition, f.value)
  }

  ghost predicate Admits(m: Mapping, conv: Conversions, l: Limits, f: Option<Filter>) {
    && f.Some?
    && match f.value.logical
       case AndSign | OrSign => true
       case OtherSign(_) => false
       case NoSign => AdmitsCondition(m, conv, l, f.value)
  }

  lemma {:induction false} ScalarAdmits(conv: Conversions, field: string, c: Condition, v: Value)
    ensures Scalar(conv, field, c, v).Some? <==> SuitsOne(conv, c, v)
  {
  }

  lemma {:induction false} SliceAdmits(conv: Conversions, field: string, c: Condition, vs: seq<Value>)
    ensures Slice(conv, field, c, vs).Some? <==>
            (|vs| >= 2 && SuitsMany(c, vs)) || (|vs| == 1 && SuitsOne(conv, OneOf(c), vs[0]))
  {
    hide Scalar, SuitsOne;
    if |vs| == 1 {
      ScalarAdmits(conv, field, OneOf(c), vs[0]);
    }
  }

  lemma {:induction false} PredicateAdmits(conv: Conversions, field: string, c: Condition, v: Value)
    ensures ToPredicate(conv, field, c, v).Some? <==> IsIdentifier(field) && Suits(conv, c, v)
  {
    hide Scalar, Slice, SuitsOne, SuitsMany, IsIdentifier;
    if v.List? {
      SliceAdmits(conv, field, c, v.items);
    } else {
      ScalarAdmits(conv, field, c, v);
    }
    if !Allowed(c) {
      UnlistedSuitsNothing(conv, c, v);
    }
  }

  lemma {:induction false} UnlistedSuitsNothing(conv: Conversions, c: Condition, v: Value)
    requires !Allowed(c)
    ensures !SuitsOne(conv, c, v) && !SuitsOne(conv, OneOf(c), v)
    ensures v.List? ==> !SuitsMany(c, v.items) && (|v.items| == 1 ==> !SuitsOne(conv, OneOf(c), v.items[0]))
  {
  }

  lemma {:induction false} BoundsAre(l: Limits, f: Filter)
    ensures WithinLimits(l, f) <==> InBounds(l, f)
  {
    if f.value.List? {
      assert Values(f) == f.value.items;
    } else {
      assert f.value in Values(f);
    }
  }

  /** An entry resolves exactly when it is admitted. */
  lemma {:induction false} EntryAdmitted(m: Mapping, conv: Conversions, l: Limits, f: Option<Filter>)
    ensures Resolved1(m, conv, l, f).Some? <==> Admits(m, conv, l, f)
  {
    hide ToPredicate, WithinLimits, InBounds, Suits, IsIdentifier, IsColumn;
    if f.Some? && f.value.field in m {
      BoundsAre(l, f.value);
      var field := m[f.value.field];
      PredicateAdmits(conv, field.column, f.value.condition, f.value.value);
      IdentifierExactly(field.column);
    }
  }

  // ----- the whole request -----

  /** The positions of the conditions. */
  function Conditions(fs: seq<Option<Filter>>): set<int> {
    set i | 0 <= i < |fs| && fs[i].Some? && fs[i].value.logical.NoSign?
  }

  lemma {:induction false} ConditionCountIs(fs: seq<Option<Filter>>)
    ensures ConditionCount(fs) == |Conditions(fs)|
  {
    if fs == [] {
      assert Conditions(fs) == {};
    } else {
      var n := |fs| - 1;
      var front := fs[..n];
      assert fs == front + [fs[n]];
      ConditionCountIs(front);
      ConditionCountSnoc(front, fs[n]);
      var one := if fs[n].Some? && fs[n].value.logical.NoSign? then {n} else {};
      assert Conditions(fs) == Conditions(front) + one;
    }
  }

  /** The index of a search finds something to search for in the dialect. */
  predicate Searchable(d: Dialect, m: Mapping, f: Option<Filter>) {
    f.Some? && f.value.logical.NoSign? && f.value.condition.Search? && f.value.field in m ==>
      var field := m[f.value.field];
      field.search.Some? && f.value.value.Str? ==> d.search(field.search.value(f.value.value.s)).Some?
  }

  lemma {:induction false} OrPartsFault(d: Dialect, field: string, op: CmpOp, vs: seq<Value>)
    requires IsIdentifier(field)
    ensures ClauseError(d, OrParts(field, op, vs)).None?
  {
    hide IsIdentifier;
    var ps := OrParts(field, op, vs);
    if |vs| == 1 {
      assert ClauseError(d, ps[1..]).None?;
    } else if |vs| > 1 {
      OrPartsFault(d, field, op, vs[1..]);
      assert ps[1..][1..] == OrParts(field, op, vs[1..]);
      assert ClauseError(d, ps[1..]) == ClauseError(d, ps[1..][1..]);
    }
  }

  lemma {:induction false} SliceFault(d: Dialect, conv: Conversions, field: string, c: Condition, vs: seq<Value>)
    requires Slice(conv, field, c, vs).Some? && IsIdentifier(field)
    ensures PredicateError(d, Slice(conv, field, c, vs).value).None?
  {
    hide IsIdentifier, Scalar;
    if |vs| == 1 {
      ScalarShape(d, conv, field, OneOf(c), vs[0]);
    } else if !(c.Range? || c.InList? || c.Equal? || c.NotInList? || c.NotEqual?) {
      OrPartsFault(d, field, ComparisonOf(c).value, vs);
    }
  }

  /** An entry that resolves has no error but that of a search. */
  lemma {:induction false} EntryFault(d: Dialect, m: Mapping, conv: Conversions, l: Limits, f: Option<Filter>)
    requires Resolved1(m, conv, l, f).Some?
    ensures PredicateError(d, Resolved1(m, conv, l, f).value).None? <==> Searchable(d, m, f)
  {
    hide IsIdentifier, WithinLimits, Slice, Scalar;
    var g := f.value;
    if g.logical.NoSign? && !g.condition.Search? && !g.condition.Null? && !g.condition.NotNull? && !g.value.Nil? {
      var field := m[g.field].column;
      if g.value.List? {
        SliceFault(d, conv, field, g.condition, g.value.items);
      } else {
        ScalarShape(d, conv, field, g.condition, g.value);
      }
    }
  }

  lemma {:induction false} ErrorsAre(d: Dialect, ps: seq<Predicate>)
    ensures ClauseError(d, ps).None? <==> forall i | 0 <= i < |ps| :: PredicateError(d, ps[i]).None?
  {
    hide PredicateError;
    if ps != [] {
      ErrorsAre(d, ps[1..]);
      assert forall i | 0 < i < |ps| :: ps[i] == ps[1..][i - 1];
      assert forall i | 0 <= i < |ps[1..]| :: ps[1..][i] == ps[i + 1];
    }
  }

  /** The positions of the entries that are not admitted, in order. */
  ghost predicate NamesTheBad(rs: seq<Reason>, m: Mapping, conv: Conversions, l: Limits, fs: seq<Option<Filter>>) {
    && (forall k | 0 <= k < |rs| :: rs[k].At?)
    && (forall k | 0 <= k < |rs| :: rs[k].i < |fs|)
    && (forall k, j | 0 <= k < j < |rs| :: rs[k].i < rs[j].i)
    && (forall i: nat | i < |fs| :: At(i) in rs <==> !Admits(m, conv, l, fs[i]))
  }

  lemma {:induction false} BadEntriesFrom(m: Mapping, conv: Conversions, l: Limits, fs: seq<Option<Filter>>, from: nat)
    ensures var rs := BadEntries(m, conv, l, fs, from);
            && (forall k | 0 <= k < |rs| :: rs[k].At?)
            && (forall k | 0 <= k < |rs| :: from <= rs[k].i < from + |fs|)
            && (forall k, j | 0 <= k < j < |rs| :: rs[k].i < rs[j].i)
            && (forall i: nat | i < |fs| :: At(from + i) in rs <==> Resolved1(m, conv, l, fs[i]).None?)
    decreases |fs|
  {
    hide Resolved1;
    if fs != [] {
      BadEntriesFrom(m, conv, l, fs[1..], from + 1);
      var rs, rest := BadEntries(m, conv, l, fs, from), BadEntries(m, conv, l, fs[1..], from + 1);
      var head := if Resolved1(m, conv, l, fs[0]).None? then [At(from)] else [];
      assert rs == head + rest;
      forall i: nat | i < |fs|
        ensures At(from + i) in rs <==> Resolved1(m, conv, l, fs[i]).None?
      {
        if i > 0 {
          assert fs[i] == fs[1..][i - 1] && from + 1 + (i - 1) == from + i;
          assert At(from + i) in rs <==> At(from + i) in rest;
        } else {
          assert At(from) !in rest;
        }
      }
    }
  }

  lemma {:induction false} BadEntriesAre(m: Mapping, conv: Conversions, l: Limits, fs: seq<Option<Filter>>)
    ensures NamesTheBad(BadEntries(m, conv, l, fs, 0), m, conv, l, fs)
    ensures BadEntries(m, conv, l, fs, 0) == [] <==> forall i | 0 <= i < |fs| :: Admits(m, conv, l, fs[i])
  {
    hide Resolved1, Admits;
    BadEntriesFrom(m, conv, l, fs, 0);
    var rs := BadEntries(m, conv, l, fs, 0);
    forall i: nat | i < |fs|
      ensures At(i) in rs <==> !Admits(m, conv, l, fs[i])
    {
      EntryAdmitted(m, conv, l, fs[i]);
      assert At(0 + i) in rs <==> Resolved1(m, conv, l, fs[i]).None?;
    }
    if rs != [] {
      assert rs[0] == At(rs[0].i) && rs[0] in rs;
    }
  }

  lemma {:induction false} ClauseAdmitted(d: Dialect, m: Mapping, conv: Conversions, l: Limits, fs: seq<Option<Filter>>)
    requires BadEntries(m, conv, l, fs, 0) == []
    ensures ClauseError(d, Predicates(m, conv, l, fs)).None? <==> forall i | 0 <= i < |fs| :: Searchable(d, m, fs[i])
  {
    hide Resolved1, Predicates, BadEntries, PredicateError, ClauseError, Searchable;
    PredicatesAre(m, conv, l, fs, 0);
    var ps := Predicates(m, conv, l, fs);
    ErrorsAre(d, ps);
    forall i | 0 <= i < |fs|
      ensures PredicateError(d, ps[i]).None? <==> Searchable(d, m, fs[i])
    {
      EntryFault(d, m, conv, l, fs[i]);
    }
  }

  /** All or nothing: a request is accepted exactly when it has no more conditions than
      allowed, its AND and OR stand between two entries, every entry is admitted and every
      search has something to search for. Otherwise the answer names the number of
      conditions, or the placement and every entry that is not admitted. */
  lemma {:induction false} AllOrNothing(base: seq<Token>, args: seq<Value>, fs: seq<Option<Filter>>, m: Mapping,
                                        d: Dialect, conv: Conversions, l: Limits)
    requires fs != []
    ensures var r, n := QueryOf(base, args, fs, m, d, conv, l), |Conditions(fs)|;
            var admitted := forall i | 0 <= i < |fs| :: Admits(m, conv, l, fs[i]);
            && (r.Query? <==> n <= l.maxFilters && SignsPlaced(fs) && admitted
                              && forall i | 0 <= i < |fs| :: Searchable(d, m, fs[i]))
            && (n > l.maxFilters ==> r == Refused([TooMany(n)]))
            && (n <= l.maxFilters && !(SignsPlaced(fs) && admitted) ==>
                  && r.Refused? && (if SignsPlaced(fs) then NamesTheBad(r.reasons, m, conv, l, fs)
                                    else r.reasons != [] && r.reasons[0] == Placement
                                         && NamesTheBad(r.reasons[1..], m, conv, l, fs)))
  {
    hide Admits, Predicates, BadEntries, ClauseError, ConditionCount, SignsPlaced, Clause, ClauseParams, NamesTheBad,
         Searchable;
    ConditionCountIs(fs);
    BadEntriesAre(m, conv, l, fs);
    var bad := BadEntries(m, conv, l, fs, 0);
    if bad == [] {
      ClauseAdmitted(d, m, conv, l, fs);
    }
    assert [] + bad == bad && ([Placement] + bad)[1..] == bad;
  }
}
