/**
  Client filters: a list of conditions and AND/OR separators from a request is checked
  against an allowlist of names and appended to a base query as base AND ( clause ).
  FilterMeaning says what each operation here computes for the database.
 */
module Filter {
  import opened SqlText
  import opened Criteria

  /** The operator strings of a filter condition; Empty is the empty string. */
  datatype Condition =
    | Equal | NotEqual | Less | LessOrEqual | Greater | GreaterOrEqual
    | InList | NotInList
    | ContainsText | NotContainsText | LikeText | NotLikeText
    | Range | Search
    | Null | NotNull | BoolTrue | BoolFalse | GroupSign
    | Empty
    | Unlisted(text: string)

  datatype Logical = NoSign | AndSign | OrSign | OtherSign(text: string)

  /** One entry of a request: a condition, or a separator when logical is set. */
  datatype Filter = Filter(field: string, condition: Condition, value: Value, logical: Logical)

  /** A name the API accepts. search gives the search of a term on the field's full-text
      index, when it has one. */
  datatype Field = Field(column: string, ops: seq<Condition>, search: Option<string -> string>)

  type Mapping = map<string, Field>

  /** Bounds of a request, after defaults: all positive. */
  datatype Limits = Limits(maxFilters: nat, maxInValues: nat, maxLikeLength: nat)

  const DEFAULTS := Limits(50, 1000, 256)

  function NewLimits(maxFilters: int, maxInValues: int, maxLikeLength: int): (l: Limits)
    ensures l.maxFilters > 0 && l.maxInValues > 0 && l.maxLikeLength > 0
    ensures l.maxFilters == (if maxFilters > 0 then maxFilters else 50)
    ensures l.maxInValues == (if maxInValues > 0 then maxInValues else 1000)
    ensures l.maxLikeLength == (if maxLikeLength > 0 then maxLikeLength else 256)
  {
    Limits(if maxFilters <= 0 then DEFAULTS.maxFilters else maxFilters,
           if maxInValues <= 0 then DEFAULTS.maxInValues else maxInValues,
           if maxLikeLength <= 0 then DEFAULTS.maxLikeLength else maxLikeLength)
  }

  /** Conversions taken as given: a "start|end" text as two times, and a value as text. */
  datatype Conversions = Conversions(dates: string -> Option<(int, int)>, show: Value -> string)

  predicate IsCondition(f: Filter) {
    f.logical.NoSign?
  }

  // ----- bounds -----

  predicate IsLikeCondition(c: Condition) {
    c.ContainsText? || c.NotContainsText? || c.LikeText? || c.NotLikeText? || c.Search?
  }

  predicate TooLong(l: Limits, v: Value) {
    v.Str? && |v.s| > l.maxLikeLength
  }

  function Values(f: Filter): seq<Value> {
    if f.value.List? then f.value.items else [f.value]
  }

  predicate WithinLimits(l: Limits, f: Filter) {
    && (f.value.List? ==> |f.value.items| <= l.maxInValues)
    && (IsLikeCondition(f.condition) ==> forall v | v in Values(f) :: !TooLong(l, v))
  }

  method Check(l: Limits, f: Filter) returns (ok: bool)
    ensures ok == WithinLimits(l, f)
  {
    var values := [f.value];
    if f.value.List? {
      if |f.value.items| > l.maxInValues {
        return false;
      }
      values := f.value.items;
    }
    if !IsLikeCondition(f.condition) {
      return true;
    }
    assert values == Values(f);
    for i := 0 to |values|
      invariant forall j | 0 <= j < i :: !TooLong(l, values[j])
    {
      if TooLong(l, values[i]) {
        return false;
      }
    }
    return true;
  }

  function ConditionCount(fs: seq<Option<Filter>>): nat {
    if fs == [] then 0
    else (if fs[0].Some? && IsCondition(fs[0].value) then 1 else 0) + ConditionCount(fs[1..])
  }

  lemma {:induction false} ConditionCountSnoc(fs: seq<Option<Filter>>, f: Option<Filter>)
    ensures ConditionCount(fs + [f]) == ConditionCount(fs) + if f.Some? && IsCondition(f.value) then 1 else 0
  {
    if fs == [] {
      assert fs + [f] == [f];
    } else {
      assert (fs + [f])[1..] == fs[1..] + [f];
      ConditionCountSnoc(fs[1..], f);
    }
  }

  method CountConditions(fs: seq<Option<Filter>>) returns (n: nat)
    ensures n == ConditionCount(fs)
  {
    n := 0;
    for i := 0 to |fs|
      invariant n == ConditionCount(fs[..i])
    {
      assert fs[..i + 1] == fs[..i] + [fs[i]];
      ConditionCountSnoc(fs[..i], fs[i]);
      if fs[i].Some? && IsCondition(fs[i].value) {
        n := n + 1;
      }
    }
    assert fs[..|fs|] == fs;
  }

  // ----- placement of AND / OR -----

  predicate IsSign(f: Option<Filter>) {
    f.Some? && !IsCondition(f.value)
  }

  predicate SignsPlaced(fs: seq<Option<Filter>>) {
    fs == [] ||
    (!IsSign(fs[0]) && !IsSign(fs[|fs| - 1]) && forall i | 0 < i < |fs| :: !(IsSign(fs[i - 1]) && IsSign(fs[i])))
  }

  method ValidateLogicalPlacement(fs: seq<Option<Filter>>) returns (ok: bool)
    ensures ok == SignsPlaced(fs)
  {
    if fs == [] {
      return true;
    }
    if IsSign(fs[0]) || IsSign(fs[|fs| - 1]) {
      return false;
    }
    for i := 1 to |fs|
      invariant forall j | 0 < j < i :: !(IsSign(fs[j - 1]) && IsSign(fs[j]))
    {
      if IsSign(fs[i]) && IsSign(fs[i - 1]) {
        return false;
      }
    }
    return true;
  }

  // ----- one filter as a predicate -----

  function Compared(field: string, op: CmpOp, v: Value): Predicate {
    Cond(field, false, Compare(op), v, false)
  }

  /** The comparisons a scalar may be tested with. */
  function ComparisonOf(c: Condition): Option<CmpOp> {
    match c
    case Equal => Some(Eq)
    case NotEqual => Some(Ne)
    case Less => Some(Lt)
    case LessOrEqual => Some(Le)
    case Greater => Some(Gt)
    case GreaterOrEqual => Some(Ge)
    case _ => None
  }

  function ScalarCondition(field: string, c: Condition, v: Value): Option<Predicate> {
    match ComparisonOf(c)
    case Some(op) => Some(Compared(field, op, v))
    case None => None
  }

  function Substring(field: string, op: Operator, s: string): Predicate {
    Cond(field, false, op, Str(s), true)
  }

  function BetweenTimes(field: string, from: int, to: int): Predicate {
    Cond(field, false, Between, List([Time(from), Time(to)], false), false)
  }

  /** A value read as text, a number, or a pair of times. */
  datatype Resolved = AsText(s: string) | AsNumber(v: Value) | AsTimes(from: int, to: int)

  function Resolve(conv: Conversions, v: Value): Resolved {
    match v
    case Str(s) =>
      if '|' in s && conv.dates(s).Some? then AsTimes(conv.dates(s).value.0, conv.dates(s).value.1)
      else AsText(s)
    case Num(_) => AsNumber(v)
    case Flt(_) => AsNumber(v)
    case _ => AsText(conv.show(v))
  }

  function Scalar(conv: Conversions, field: string, c: Condition, v: Value): Option<Predicate> {
    match Resolve(conv, v)
    case AsText(s) =>
      (match c
       case ContainsText => Some(Substring(field, Contains, s))
       case NotContainsText => Some(Substring(field, NotContains, s))
       case LikeText => Some(Substring(field, Likes, s))
       case NotLikeText => Some(Substring(field, NotLikes, s))
       case _ => ScalarCondition(field, c, Str(s)))
    case AsNumber(n) => ScalarCondition(field, c, n)
    case AsTimes(from, to) => if c.Range? then Some(BetweenTimes(field, from, to)) else None
  }

  /** field op v0 OR field op v1 …, the connectors included. */
  function OrParts(field: string, op: CmpOp, vs: seq<Value>): seq<Predicate> {
    if vs == [] then []
    else if |vs| == 1 then [Compared(field, op, vs[0])]
    else [Compared(field, op, vs[0]), Connector(true)] + OrParts(field, op, vs[1..])
  }

  lemma {:induction false} OrPartsSnoc(field: string, op: CmpOp, vs: seq<Value>, v: Value)
    ensures OrParts(field, op, vs + [v])
         == OrParts(field, op, vs) + (if vs == [] then [] else [Connector(true)]) + [Compared(field, op, v)]
  {
    hide Compared;
    if vs == [] {
      assert vs + [v] == [v];
    } else {
      assert (vs + [v])[1..] == vs[1..] + [v];
      OrPartsSnoc(field, op, vs[1..], v);
      if |vs| == 1 {
        assert vs[1..] == [];
      }
    }
  }

  method BuildOrExpansion(field: string, c: Condition, vs: seq<Value>) returns (r: Option<Predicate>)
    ensures r == OrExpansion(field, c, vs)
  {
    var parts: seq<Predicate> := [];
    for i := 0 to |vs|
      invariant if i == 0 then parts == [] else ComparisonOf(c).Some?
      invariant ComparisonOf(c).Some? ==> parts == OrParts(field, ComparisonOf(c).value, vs[..i])
    {
      assert vs[..i + 1] == vs[..i] + [vs[i]];
      if i > 0 {
        parts := parts + [Connector(true)];
      }
      var p := ScalarCondition(field, c, vs[i]);
      if p.None? {
        return None;
      }
      OrPartsSnoc(field, ComparisonOf(c).value, vs[..i], vs[i]);
      parts := parts + [p.value];
    }
    assert vs[..|vs|] == vs;
    return Some(Group(parts));
  }

  function OrExpansion(field: string, c: Condition, vs: seq<Value>): Option<Predicate> {
    if vs == [] then Some(Group([]))
    else match ComparisonOf(c)
      case Some(op) => Some(Group(OrParts(field, op, vs)))
      case None => None
  }

  function SingleElement(conv: Conversions, field: string, c: Condition, v: Value): Option<Predicate> {
    Scalar(conv, field, if c.InList? then Equal else if c.NotInList? then NotEqual else c, v)
  }

  function Slice(conv: Conversions, field: string, c: Condition, vs: seq<Value>): Option<Predicate> {
    if vs == [] then None
    else if |vs| == 1 then SingleElement(conv, field, c, vs[0])
    else match c
      case Range =>
        if |vs| == 2 && vs[0].Time? && vs[1].Time? then Some(BetweenTimes(field, vs[0].t, vs[1].t)) else None
      case InList | Equal => Some(Cond(field, false, In, List(vs, false), false))
      case NotInList | NotEqual => Some(Cond(field, false, NotIn, List(vs, false), false))
      case _ => OrExpansion(field, c, vs)
  }

  predicate Allowed(c: Condition) {
    !c.Unlisted? && !c.Empty?
  }

  /** A condition on a column already resolved through the mapping. */
  function ToPredicate(conv: Conversions, field: string, c: Condition, v: Value): Option<Predicate> {
    if !IsIdentifier(field) then None
    else if c.Null? then Some(Cond(field, false, Criteria.Check(IsNull), Nil, false))
    else if c.NotNull? then Some(Cond(field, false, Criteria.Check(IsNotNull), Nil, false))
    else if v.Nil? then Some(Cond(field, false, Criteria.Check(IsNull), Nil, false))
    else if !Allowed(c) then None
    else if v.List? then Slice(conv, field, c, v.items)
    else Scalar(conv, field, c, v)
  }

  /** The entry as a predicate, resolved through the mapping; None when it is rejected. */
  function Resolved1(m: Mapping, conv: Conversions, l: Limits, f: Option<Filter>): Option<Predicate> {
    if f.None? then None
    else
      var f := f.value;
      match f.logical
      case AndSign => Some(Connector(false))
      case OrSign => Some(Connector(true))
      case OtherSign(_) => None
      case NoSign =>
        if !WithinLimits(l, f) || f.field !in m then None
        else
          var field := m[f.field];
          var cond := if f.value.Nil? && f.condition.Empty? then Null else f.condition;
          if field.ops != [] && cond !in field.ops then None
          else if cond.Search? then
            if field.search.Some? && f.value.Str? then Some(Match(field.search.value(f.value.s))) else None
          else ToPredicate(conv, field.column, f.condition, f.value)
  }

  // ----- the whole request -----

  /** Why a request was rejected: every reason found, not only the first. */
  datatype Reason = TooMany(n: nat) | Placement | At(i: nat) | InClause(error: Error)

  datatype Outcome = Refused(reasons: seq<Reason>) | Query(text: seq<Token>, params: seq<Value>)

  /** The positions of the entries that do not resolve, in order. */
  function BadEntries(m: Mapping, conv: Conversions, l: Limits, fs: seq<Option<Filter>>, from: nat): seq<Reason> {
    if fs == [] then []
    else
      (if Resolved1(m, conv, l, fs[0]).None? then [At(from)] else [])
      + BadEntries(m, conv, l, fs[1..], from + 1)
  }

  /** The entries that resolve, in order. */
  function Predicates(m: Mapping, conv: Conversions, l: Limits, fs: seq<Option<Filter>>): seq<Predicate> {
    if fs == [] then []
    else
      var p := Resolved1(m, conv, l, fs[0]);
      (if p.Some? then [p.value] else []) + Predicates(m, conv, l, fs[1..])
  }

  /** base AND ( clause ) */
  function Appended(base: seq<Token>, clause: seq<Token>): seq<Token> {
    base + [AndKw, LParen] + clause + [RParen]
  }

  method ResolveAll(fs: seq<Option<Filter>>, m: Mapping, conv: Conversions, l: Limits)
      returns (ps: seq<Predicate>, bad: seq<Reason>)
    ensures ps == Predicates(m, conv, l, fs) && bad == BadEntries(m, conv, l, fs, 0)
  {
    hide Resolved1, Predicates, BadEntries;
    ps, bad := [], [];
    assert fs[0..] == fs;
    for i := 0 to |fs|
      invariant bad + BadEntries(m, conv, l, fs[i..], i) == BadEntries(m, conv, l, fs, 0)
      invariant ps + Predicates(m, conv, l, fs[i..]) == Predicates(m, conv, l, fs)
    {
      EntriesFrom(fs, i, m, conv, l);
      var p := Resolved1(m, conv, l, fs[i]);
      if p.None? {
        bad := bad + [At(i)];
      } else {
        ps := ps + [p.value];
      }
    }
    EntriesEnd(fs, m, conv, l);
  }

  lemma {:induction false} EntriesFrom(fs: seq<Option<Filter>>, i: nat, m: Mapping, conv: Conversions, l: Limits)
    requires i < |fs|
    ensures var p := Resolved1(m, conv, l, fs[i]);
            && BadEntries(m, conv, l, fs[i..], i)
                 == (if p.None? then [At(i)] else []) + BadEntries(m, conv, l, fs[i + 1..], i + 1)
            && Predicates(m, conv, l, fs[i..])
                 == (if p.Some? then [p.value] else []) + Predicates(m, conv, l, fs[i + 1..])
  {
    hide Resolved1;
    assert fs[i..][1..] == fs[i + 1..];
  }

  lemma {:induction false} EntriesEnd(fs: seq<Option<Filter>>, m: Mapping, conv: Conversions, l: Limits)
    ensures BadEntries(m, conv, l, fs[|fs|..], |fs|) == [] && Predicates(m, conv, l, fs[|fs|..]) == []
  {
  }

  method Build(base: seq<Token>, args: seq<Value>, fs: seq<Option<Filter>>, m: Mapping, d: Dialect,
               conv: Conversions, l: Limits) returns (r: Outcome)
    ensures r == QueryOf(base, args, fs, m, d, conv, l)
  {
    hide BadEntries, Predicates, ConditionCount, SignsPlaced, BuiltAfter;
    if fs == [] {
      return Query(base, args);
    }
    var n := CountConditions(fs);
    if n > l.maxFilters {
      return Refused([TooMany(n)]);
    }
    var placed := ValidateLogicalPlacement(fs);
    var ps, bad := ResolveAll(fs, m, conv, l);
    var reasons := (if placed then [] else [Placement]) + bad;
    if reasons != [] {
      return Refused(reasons);
    }
    var b := BuildClauseAfter(args, ps, d);
    if b.Rejected? {
      return Refused([InClause(b.error)]);
    }
    return Query(Appended(base, b.text), b.params);
  }

  function QueryOf(base: seq<Token>, args: seq<Value>, fs: seq<Option<Filter>>, m: Mapping, d: Dialect,
                 conv: Conversions, l: Limits): Outcome
  {
    if fs == [] then Query(base, args)
    else if ConditionCount(fs) > l.maxFilters then Refused([TooMany(ConditionCount(fs))])
    else
      var reasons := (if SignsPlaced(fs) then [] else [Placement]) + BadEntries(m, conv, l, fs, 0);
      if reasons != [] then Refused(reasons)
      else match BuiltAfter(args, Predicates(m, conv, l, fs), d)
        case Rejected(e) => Refused([InClause(e)])
        case Accepted(text, params) => Query(Appended(base, text), params)
  }
}
