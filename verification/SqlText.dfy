/**
  The text of a WHERE clause as the database reads it back: tokens, a parser with SQL's
  precedence (AND binds tighter than OR, parentheses, BETWEEN's own AND) and the value
  of a condition on one row, in three-valued logic.
 */
module SqlText {
  import Like

  datatype Option<+T> = None | Some(value: T)

  // ----- three-valued logic -----

  datatype Tri = True | False | Unknown

  function Not3(a: Tri): Tri {
    match a
    case True => False
    case False => True
    case Unknown => Unknown
  }

  function And3(a: Tri, b: Tri): Tri {
    if a == False || b == False then False
    else if a == True && b == True then True
    else Unknown
  }

  function Or3(a: Tri, b: Tri): Tri {
    if a == True || b == True then True
    else if a == False && b == False then False
    else Unknown
  }

  function Of(b: bool): Tri {
    if b then True else False
  }

  // ----- values, rows -----

  /** A value a caller may bind. List is a slice; typed when the driver can bind it as
      one array (not a slice of mixed elements). Other is any further scalar, by its
      printed text. */
  datatype Value =
    | Nil
    | Str(s: string)
    | Num(n: int)
    | Flt(r: real)
    | Time(t: int)
    | Other(text: string)
    | List(items: seq<Value>, typed: bool)

  datatype CmpOp = Eq | Ne | Lt | Le | Gt | Ge
  datatype Test = IsNull | IsNotNull | IsTrue | IsFalse

  /** One row of the database: what each condition on one column evaluates to. The text
      of a column is None for NULL. */
  datatype Row = Row(
    compare: (CmpOp, string, Value) -> Tri,
    test: (Test, string) -> Tri,
    text: string -> Option<string>,
    matcher: bool -> Like.Matcher,             // of LIKE, and of ILIKE when true
    pattern: (bool, string, Value) -> Tri,     // LIKE without an ESCAPE clause
    overlap: (string, Value) -> Tri,
    search: (string, seq<Value>) -> Tri)

  /** != is the negation of =, also on NULL. */
  ghost predicate Lawful(row: Row) {
    forall c: string, v: Value :: row.compare(Ne, c, v) == Not3(row.compare(Eq, c, v))
  }

  /** column = v for some v of vs. */
  function AnyEqual(row: Row, column: string, vs: seq<Value>): Tri {
    if vs == [] then False
    else Or3(row.compare(Eq, column, vs[0]), AnyEqual(row, column, vs[1..]))
  }

  /** column != v for every v of vs. */
  function AllDiffer(row: Row, column: string, vs: seq<Value>): Tri {
    if vs == [] then True
    else And3(row.compare(Ne, column, vs[0]), AllDiffer(row, column, vs[1..]))
  }

  lemma {:induction false} AllDifferIsNotAnyEqual(row: Row, column: string, vs: seq<Value>)
    requires Lawful(row)
    ensures AllDiffer(row, column, vs) == Not3(AnyEqual(row, column, vs))
  {
    if vs != [] {
      AllDifferIsNotAnyEqual(row, column, vs[1..]);
    }
  }

  // ----- tokens -----

  datatype Token =
    | Col(name: string)
    | Cmp(op: CmpOp)
    | Is(test: Test)
    | Param(n: nat)
    | Int(i: int)
    | LParen
    | RParen
    | Comma
    | AndKw
    | OrKw
    | BetweenKw
    | InKw(negate: bool)
    | LikeKw(not: bool, fold: bool)
    | EscapeKw                     // ESCAPE '!'
    | AnyKw
    | AllKw
    | OverlapKw
    | Text(search: string, first: nat, count: nat)   // a full-text condition and its placeholders

  /** The placeholder numbers of a text, left to right. */
  function Placeholders(ts: seq<Token>): seq<nat> {
    if ts == [] then []
    else
      (match ts[0]
       case Param(n) => [n]
       case Text(_, first, count) => seq(count, i requires 0 <= i => first + i)
       case _ => []) + Placeholders(ts[1..])
  }

  lemma {:induction false} PlaceholdersConcat(a: seq<Token>, b: seq<Token>)
    ensures Placeholders(a + b) == Placeholders(a) + Placeholders(b)
  {
    if a == [] {
      assert a + b == b;
    } else {
      assert (a + b)[1..] == a[1..] + b;
      PlaceholdersConcat(a[1..], b);
    }
  }

  /** The columns a text names. */
  function Columns(ts: seq<Token>): set<string> {
    set t | t in ts && t.Col? :: t.name
  }

  // ----- parsing -----

  datatype Expr =
    | OrE(l: Expr, r: Expr)
    | AndE(l: Expr, r: Expr)
    | CmpE(column: string, op: CmpOp, n: nat)
    | IntsE(i: int, op: CmpOp, j: int)
    | TestE(column: string, test: Test)
    | BetweenE(column: string, from: nat, to: nat)
    | InE(column: string, negate: bool, ns: seq<nat>)
    | ArrayE(column: string, op: CmpOp, all: bool, n: nat)
    | OverlapE(column: string, n: nat)
    | LikeE(column: string, negate: bool, fold: bool, n: nat, escape: bool)
    | TextE(search: string, first: nat, count: nat)

  datatype Parsed = Fail | Ok(e: Expr, rest: seq<Token>)

  predicate StartsWith(ts: seq<Token>, t: Token) {
    ts != [] && ts[0] == t
  }

  /** orExpr := andExpr [OR orExpr] */
  function ParseOr(ts: seq<Token>): (r: Parsed)
    ensures r.Ok? ==> |r.rest| < |ts|
    decreases |ts|, 2
  {
    var a := ParseAnd(ts);
    if a.Ok? && StartsWith(a.rest, OrKw) then
      var b := ParseOr(a.rest[1..]);
      if b.Ok? then Ok(OrE(a.e, b.e), b.rest) else Fail
    else a
  }

  /** andExpr := primary [AND andExpr] */
  function ParseAnd(ts: seq<Token>): (r: Parsed)
    ensures r.Ok? ==> |r.rest| < |ts|
    decreases |ts|, 1
  {
    var a := ParsePrimary(ts);
    if a.Ok? && StartsWith(a.rest, AndKw) then
      var b := ParseAnd(a.rest[1..]);
      if b.Ok? then Ok(AndE(a.e, b.e), b.rest) else Fail
    else a
  }

  /** primary := '(' orExpr ')' | condition */
  function ParsePrimary(ts: seq<Token>): (r: Parsed)
    ensures r.Ok? ==> |r.rest| < |ts|
    decreases |ts|, 0
  {
    if StartsWith(ts, LParen) then
      var a := ParseOr(ts[1..]);
      if a.Ok? && StartsWith(a.rest, RParen) then Ok(a.e, a.rest[1..]) else Fail
    else ParseCondition(ts)
  }

  function ParseCondition(ts: seq<Token>): (r: Parsed)
    ensures r.Ok? ==> |r.rest| < |ts|
  {
    if ts == [] then Fail
    else match ts[0]
      case Text(s, first, count) => Ok(TextE(s, first, count), ts[1..])
      case Int(i) =>
        if |ts| >= 3 && ts[1].Cmp? && ts[2].Int? then Ok(IntsE(i, ts[1].op, ts[2].i), ts[3..]) else Fail
      case Col(c) => ParseColumn(c, ts[1..])
      case _ => Fail
  }

  /** What may follow a column. */
  function ParseColumn(c: string, ts: seq<Token>): (r: Parsed)
    ensures r.Ok? ==> |r.rest| < |ts|
  {
    if ts == [] then Fail
    else match ts[0]
      case Is(t) => Ok(TestE(c, t), ts[1..])
      case Cmp(op) =>
        if |ts| >= 2 && ts[1].Param? then Ok(CmpE(c, op, ts[1].n), ts[2..])
        else if |ts| >= 5 && (ts[1].AnyKw? || ts[1].AllKw?) && ts[2].LParen? && ts[3].Param? && ts[4].RParen? then
          Ok(ArrayE(c, op, ts[1].AllKw?, ts[3].n), ts[5..])
        else Fail
      case BetweenKw =>
        if |ts| >= 4 && ts[1].Param? && ts[2].AndKw? && ts[3].Param? then
          Ok(BetweenE(c, ts[1].n, ts[3].n), ts[4..])
        else Fail
      case LikeKw(not, fold) =>
        if |ts| >= 2 && ts[1].Param? then
          if |ts| >= 3 && ts[2].EscapeKw? then Ok(LikeE(c, not, fold, ts[1].n, true), ts[3..])
          else Ok(LikeE(c, not, fold, ts[1].n, false), ts[2..])
        else Fail
      case InKw(negate) =>
        if |ts| >= 2 && ts[1].LParen? then
          var l := ParseList(ts[2..]);
          if l.Some? then Ok(InE(c, negate, l.value.0), l.value.1) else Fail
        else Fail
      case OverlapKw =>
        if |ts| >= 2 && ts[1].Param? then Ok(OverlapE(c, ts[1].n), ts[2..]) else Fail
      case _ => Fail
  }

  /** list := placeholder [',' list] ')' */
  function ParseList(ts: seq<Token>): (r: Option<(seq<nat>, seq<Token>)>)
    ensures r.Some? ==> |r.value.1| < |ts|
  {
    if |ts| < 2 || !ts[0].Param? then None
    else if ts[1].RParen? then Some(([ts[0].n], ts[2..]))
    else if ts[1].Comma? then
      var l := ParseList(ts[2..]);
      if l.Some? then Some(([ts[0].n] + l.value.0, l.value.1)) else None
    else None
  }

  // ----- evaluation -----

  /** The value bound to placeholder n; placeholders count from 1. */
  function Bound(params: seq<Value>, n: nat): Value {
    if 1 <= n <= |params| then params[n - 1] else Nil
  }

  function BoundAll(params: seq<Value>, ns: seq<nat>): seq<Value> {
    seq(|ns|, i requires 0 <= i < |ns| => Bound(params, ns[i]))
  }

  function CompareInts(i: int, op: CmpOp, j: int): bool {
    match op
    case Eq => i == j
    case Ne => i != j
    case Lt => i < j
    case Le => i <= j
    case Gt => i > j
    case Ge => i >= j
  }

  function Negated(negate: bool, t: Tri): Tri {
    if negate then Not3(t) else t
  }

  /** column LIKE pattern ESCAPE '!' */
  function LikeEscaped(row: Row, column: string, fold: bool, pattern: Value): Tri {
    match row.text(column)
    case None => Unknown
    case Some(t) => if pattern.Str? then Of(Like.Matches(row.matcher(fold), pattern.s, t)) else Unknown
  }

  function Eval(row: Row, params: seq<Value>, e: Expr): Tri {
    match e
    case OrE(l, r) => Or3(Eval(row, params, l), Eval(row, params, r))
    case AndE(l, r) => And3(Eval(row, params, l), Eval(row, params, r))
    case CmpE(c, op, n) => row.compare(op, c, Bound(params, n))
    case IntsE(i, op, j) => Of(CompareInts(i, op, j))
    case TestE(c, t) => row.test(t, c)
    case BetweenE(c, a, b) => And3(row.compare(Ge, c, Bound(params, a)), row.compare(Le, c, Bound(params, b)))
    case InE(c, negate, ns) => Negated(negate, AnyEqual(row, c, BoundAll(params, ns)))
    case ArrayE(c, op, all, n) =>
      var v := Bound(params, n);
      if !v.List? then Unknown
      else if op.Eq? && !all then AnyEqual(row, c, v.items)
      else if op.Ne? && all then AllDiffer(row, c, v.items)
      else Unknown
    case OverlapE(c, n) => row.overlap(c, Bound(params, n))
    case LikeE(c, negate, fold, n, escape) =>
      var v := Bound(params, n);
      Negated(negate, if escape then LikeEscaped(row, c, fold, v) else row.pattern(fold, c, v))
    case TextE(s, first, count) =>
      row.search(s, seq(count, i requires 0 <= i => Bound(params, first + i)))
  }

  /** The value of a whole condition text on a row; None when it does not parse. */
  function Value3(row: Row, params: seq<Value>, ts: seq<Token>): Option<Tri> {
    var r := ParseOr(ts);
    if r.Ok? && r.rest == [] then Some(Eval(row, params, r.e)) else None
  }
}
