/**
  The layout of a formatted statement, said of the statement's tokens alone: one pass over
  them with a stack of open parentheses gives the whitespace before each token, line breaks
  and indentation included. SqlLayout proves that the formatter writes exactly that.
 */
module SqlBreaks {
  import opened SqlTokens
  import opened SqlFormat
  import opened SqlFormatTokens

  // ----- the rule -----

  /** A parenthesis that is open, or the statement itself: arguments stay on one line, a
      subquery has clauses of its own. A parenthesis was opened on a line indented by at. */
  datatype Frame = Frame(inline: bool, clause: seq<string>, between: bool, at: nat)

  /** The innermost frame first; skip words of a clause keyword are still to come; begun
      when the next token starts a line; the indentation of the current line; and whether a
      parenthesis is set apart from the last token as from a keyword. */
  datatype Scan = Scan(frames: seq<Frame>, skip: nat, begun: bool, line: nat, wide: bool)

  const TOP := Frame(false, [], false, 0)

  /** Keywords that are called like functions. */
  const CALLED: set<string> := {"COUNT", "COALESCE", "ANY", "EXISTS"}

  predicate Joins(kw: seq<string>) {
    kw != [] && kw[|kw| - 1] in {"JOIN", "LATERAL"}
  }

  /** The indentation of the clauses of the innermost frame: one more than its parenthesis. */
  function Base(frames: seq<Frame>): nat
    requires frames != []
  {
    if |frames| == 1 then 0 else frames[0].at + 1
  }

  predicate Filters(f: Frame) {
    f.clause in {["WHERE"], ["HAVING"]}
  }

  /** The AND or OR of a condition, the AND of a BETWEEN excepted. */
  predicate Splits(u: Runes, t: Token, f: Frame) {
    && t.kind == Kind.Word && Filters(f)
    && (u.upper(t.s) == "OR" || (u.upper(t.s) == "AND" && !f.between))
  }

  /** A BETWEEN waits for its AND. */
  predicate Waits(u: Runes, t: Token, f: Frame) {
    u.upper(t.s) == "BETWEEN" || (f.between && !(t.kind == Kind.Word && u.upper(t.s) == "AND" && Filters(f)))
  }

  predicate BeginsSubquery(u: Runes, ts: seq<Token>, i: nat) {
    i < |ts| && ts[i].kind == Kind.Word && (u.sameFold(ts[i].s, "SELECT") || u.sameFold(ts[i].s, "WITH"))
  }

  predicate Wide(u: Runes, t: Token, clause: bool) {
    t.kind == Kind.Word && u.upper(t.s) !in CALLED && (clause || u.upper(t.s) in KEYWORDS)
  }

  /** The indentation of the line that token i starts by itself: as a clause, with one more
      for a join; as an AND or OR; or closing a subquery, on a line like the one it was
      opened on. The first clause of a statement has no line before it. */
  function OwnLine(u: Runes, ts: seq<Token>, i: nat, sc: Scan): Option<nat>
    requires i < |ts| && sc.frames != []
  {
    var t, f, base, kw := ts[i], sc.frames[0], Base(sc.frames), ClauseAt(u, ts, i);
    if f.inline || sc.skip > 0 || t.kind == Open || t.kind == Comma then None
    else if t.kind == Close then if |sc.frames| > 1 then Some(f.at) else None
    else if Joins(kw) then Some(base + 1)
    else if kw != [] then if i > 0 && !sc.begun then Some(base) else None
    else if Splits(u, t, f) then Some(base + 1)
    else None
  }

  /** The line that token i stands on. */
  function LineOf(u: Runes, ts: seq<Token>, i: nat, sc: Scan): nat
    requires i < |ts| && sc.frames != []
  {
    var own := OwnLine(u, ts, i, sc);
    if own.Some? then own.value else sc.line
  }

  /** After token i: a line is begun after SELECT, after a comma of its list, and inside
      the parenthesis of a subquery. */
  function Next(u: Runes, ts: seq<Token>, i: nat, sc: Scan): Scan
    requires i < |ts| && sc.frames != []
  {
    var t, f, below, line := ts[i], sc.frames[0], sc.frames[1..], LineOf(u, ts, i, sc);
    var item := Base(sc.frames) + 1;
    if sc.skip > 0 then Scan(sc.frames, sc.skip - 1, false, line, Wide(u, t, true))
    else match t.kind
      case Open =>
        var subquery := BeginsSubquery(u, ts, i + 1);
        Scan([Frame(!subquery, [], false, line)] + sc.frames, 0, subquery, if subquery then line + 1 else line, false)
      case Close => Scan(if below != [] then below else [TOP], 0, false, line, false)
      case Comma =>
        var listed := !f.inline && f.clause == ["SELECT"];
        Scan(sc.frames, 0, listed, if listed then item else line, false)
      case _ =>
        var kw := ClauseAt(u, ts, i);
        if !f.inline && kw != [] then
          var select := kw == ["SELECT"];
          Scan([f.(clause := kw)] + below, |kw| - 1, select, if select then item else line, Wide(u, t, true))
        else
          Scan([f.(between := if f.inline then f.between else Waits(u, t, f))] + below, 0, false, line,
               Wide(u, t, false))
  }

  /** Before token i. */
  function ScanAt(u: Runes, ts: seq<Token>, i: nat): (sc: Scan)
    requires i <= |ts|
    ensures sc.frames != []
  {
    if i == 0 then Scan([TOP], 0, false, 0, false) else Next(u, ts, i - 1, ScanAt(u, ts, i - 1))
  }

  /** Token i starts a line. */
  predicate BreaksBefore(u: Runes, ts: seq<Token>, i: nat)
    requires i < |ts|
  {
    ScanAt(u, ts, i).begun || OwnLine(u, ts, i, ScanAt(u, ts, i)).Some?
  }

  /** A line break, and two blanks for each level of indentation. */
  function Line(n: nat): (r: string)
    ensures |r| == 1 + 2 * n && r[0] == '\n' && forall i | 0 < i < |r| :: r[i] == ' '
  {
    seq(1 + 2 * n, i => if i == 0 then '\n' else ' ')
  }

  /** A blank goes between two tokens of a line. */
  predicate Apart(p: Token, t: Token, wide: bool) {
    && p.kind != Open && t.kind != Close && t.kind != Comma && p.s != "::" && t.s != "::"
    && (t.kind == Open && p.kind == Kind.Word ==> wide || (p.s in KEYWORDS && p.s !in CALLED))
  }

  /** The whitespace before token i. */
  function GapBefore(u: Runes, ts: seq<Token>, i: nat): string
    requires i < |ts|
  {
    var sc := ScanAt(u, ts, i);
    var own := OwnLine(u, ts, i, sc);
    (if sc.begun then Line(sc.line) else "") +
    (if own.Some? then Line(own.value)
     else if i > 0 && !sc.begun && Apart(ts[i - 1], ts[i], sc.wide) then " "
     else "")
  }

  function GapsTo(u: Runes, ts: seq<Token>, i: nat): (r: seq<string>)
    requires i <= |ts|
    ensures |r| == i
  {
    if i == 0 then [] else GapsTo(u, ts, i - 1) + [GapBefore(u, ts, i - 1)]
  }

  function BreaksTo(u: Runes, ts: seq<Token>, i: nat): (r: seq<bool>)
    requires i <= |ts|
    ensures |r| == i
  {
    if i == 0 then [] else BreaksTo(u, ts, i - 1) + [BreaksBefore(u, ts, i - 1)]
  }

  /** For each token of a statement, whether it starts a line of the layout. */
  function Breaks(u: Runes, ts: seq<Token>): (r: seq<bool>)
    ensures |r| == |ts|
  {
    BreaksTo(u, ts, |ts|)
  }

  lemma {:induction false} BreaksAt(u: Runes, ts: seq<Token>, i: nat, k: nat)
    requires k < i <= |ts|
    ensures BreaksTo(u, ts, i)[k] == BreaksBefore(u, ts, k)
    decreases i
  {
    hide BreaksBefore;
    if k < i - 1 {
      BreaksAt(u, ts, i - 1, k);
    }
  }

  // ----- clause keywords -----

  /** The words of kw stand at i, in any case. */
  predicate Stands(u: Runes, ts: seq<Token>, i: nat, kw: seq<string>) {
    i + |kw| <= |ts| && forall k | 0 <= k < |kw| :: Spells(u, ts[i + k], kw[k])
  }

  predicate Spells(u: Runes, t: Token, w: string) {
    t.kind == Kind.Word && u.sameFold(t.s, w)
  }

  lemma {:induction false} FirstIsLongest(u: Runes, ts: seq<Token>, i: nat, kws: seq<seq<string>>, kw: seq<string>)
    requires forall a, b | 0 <= a < b < |kws| :: |kws[a]| >= |kws[b]|
    requires kw in kws && kw != [] && StandsAt(u, ts, i, kw)
    ensures |FirstStanding(u, ts, i, kws)| >= |kw|
  {
    hide StandsAt;
    if kws[0] != kw && !(kws[0] != [] && StandsAt(u, ts, i, kws[0])) {
      assert forall a, b | 0 <= a < b < |kws[1..]| :: kws[1..][a] == kws[a + 1] && kws[1..][b] == kws[b + 1];
      FirstIsLongest(u, ts, i, kws[1..], kw);
    }
  }

  /** The clause keyword at i is the longest that stands there, and there is one whenever
      any stands there. */
  lemma {:induction false} LongestClause(u: Runes, ts: seq<Token>, i: nat)
    ensures var kw := ClauseAt(u, ts, i);
            && (kw != [] ==> kw in CLAUSES && Stands(u, ts, i, kw))
            && forall other | other in CLAUSES && Stands(u, ts, i, other) :: |other| <= |kw|
  {
    hide StandsAt, Stands, FirstStanding;
    var kw := ClauseAt(u, ts, i);
    StandsIs(u, ts, i, kw);
    forall other | other in CLAUSES && Stands(u, ts, i, other)
      ensures |other| <= |kw|
    {
      StandsIs(u, ts, i, other);
      if other != [] {
        ClausesDescend();
        FirstIsLongest(u, ts, i, CLAUSES, other);
      }
    }
  }

  lemma {:induction false} ClauseLengths(n: nat)
    requires n < |CLAUSES|
    ensures |CLAUSES[n]| == if n < 2 then 3 else if n < 13 then 2 else 1
  {
  }

  lemma {:induction false} ClausesDescend()
    ensures forall a, b | 0 <= a < b < |CLAUSES| :: |CLAUSES[a]| >= |CLAUSES[b]|
  {
    forall a, b | 0 <= a < b < |CLAUSES|
      ensures |CLAUSES[a]| >= |CLAUSES[b]|
    {
      ClauseLengths(a);
      ClauseLengths(b);
    }
  }

  lemma {:induction false} StandsIs(u: Runes, ts: seq<Token>, i: nat, kw: seq<string>)
    ensures Stands(u, ts, i, kw) <==> StandsAt(u, ts, i, kw)
  {
    if i + |kw| <= |ts| {
      assert forall k | 0 <= k < |kw| :: Is(u, ts[i + k], kw[k]) <==> Spells(u, ts[i + k], kw[k]);
    }
  }

  // ----- the whitespace of what was written -----

  /** For each token written, the whitespace right before it; g comes before all of them. */
  function Gaps(ps: seq<Piece>, g: string): (r: seq<string>)
    ensures |r| == |Written(ps)|
  {
    if ps == [] then []
    else match ps[0]
      case Tok(_) => [g] + Gaps(ps[1..], "")
      case Gap(h) => Gaps(ps[1..], g + h)
  }

  /** The whitespace that comes last. */
  function Tail(ps: seq<Piece>, g: string): string {
    if ps == [] then g else Tail(ps[1..], if ps[0].Tok? then "" else g + ps[0].g)
  }

  lemma {:induction false} GapsSnoc(ps: seq<Piece>, p: Piece, g: string)
    ensures Gaps(ps + [p], g) == Gaps(ps, g) + (if p.Tok? then [Tail(ps, g)] else [])
    ensures Tail(ps + [p], g) == if p.Tok? then "" else Tail(ps, g) + p.g
    decreases |ps|
  {
    if ps == [] {
      assert ps + [p] == [p] && [p][1..] == [];
    } else {
      assert (ps + [p])[1..] == ps[1..] + [p];
      GapsSnoc(ps[1..], p, if ps[0].Tok? then "" else g + ps[0].g);
    }
  }

  lemma {:induction false} WriteGaps(u: Runes, st: State, t: Token, keyword: bool)
    ensures var w := Write(u, st, t, keyword);
            && Gaps(w.out, "") == Gaps(st.out, "") + [Tail(st.out, "") + (if Spaced(st, t) then " " else "")]
            && Tail(w.out, "") == "" && w.last == t && w.lineIndent == st.lineIndent
                 && (t.s != [] ==> Flat(w.out) != [])
  {
    hide Spaced, IsKeyword, IsUpperKeyword, Gaps, Tail, Flat, Written;
    GapsSnoc(st.out, Gap(" "), "");
    GapsSnoc(st.out + [Gap(" ")], Tok(t), "");
    GapsSnoc(st.out, Tok(t), "");
    FlatSnoc(st.out + [Gap(" ")], Tok(t));
    FlatSnoc(st.out, Tok(t));
    assert st.out + [] == st.out && Tail(st.out, "") + "" == Tail(st.out, "");
    assert Gaps(st.out, "") + [] == Gaps(st.out, "");
  }

  lemma {:induction false} IndentIs(n: nat)
    ensures "\n" + Indent(n) == Line(n)
  {
    var g := "\n" + Indent(n);
    assert forall i | 0 < i < |g| :: g[i] == Indent(n)[i - 1];
  }

  lemma {:induction false} NewlineGaps(st: State, indent: nat)
    ensures var w := Newline(st, indent);
            && Gaps(w.out, "") == Gaps(st.out, "") && Tail(w.out, "") == Tail(st.out, "") + Line(indent)
            && w.last.s == "\n" && w.lineIndent == indent && Flat(w.out) != []
  {
    hide Gaps, Tail, Flat, Written, Line, Indent;
    IndentIs(indent);
    GapsSnoc(st.out, Gap(Line(indent)), "");
    FlatSnoc(st.out, Gap(Line(indent)));
    assert Gaps(st.out, "") + [] == Gaps(st.out, "");
  }

  // ----- the lines of what was written -----

  /** For each token written, whether a line break comes right before it; begun when one
      comes before all of them. */
  function Marks(ps: seq<Piece>, begun: bool): (r: seq<bool>)
    ensures |r| == |Written(ps)|
  {
    if ps == [] then []
    else match ps[0]
      case Tok(_) => [begun] + Marks(ps[1..], false)
      case Gap(g) => Marks(ps[1..], begun || '\n' in g)
  }

  /** A line break comes last. */
  function Pending(ps: seq<Piece>, begun: bool): bool {
    if ps == [] then begun else Pending(ps[1..], ps[0].Gap? && (begun || '\n' in ps[0].g))
  }

  lemma {:induction false} MarksSnoc(ps: seq<Piece>, p: Piece, begun: bool)
    ensures Marks(ps + [p], begun) == Marks(ps, begun) + (if p.Tok? then [Pending(ps, begun)] else [])
    ensures Pending(ps + [p], begun) == (p.Gap? && (Pending(ps, begun) || '\n' in p.g))
    decreases |ps|
  {
    if ps == [] {
      assert ps + [p] == [p] && [p][1..] == [];
    } else {
      assert (ps + [p])[1..] == ps[1..] + [p];
      MarksSnoc(ps[1..], p, ps[0].Gap? && (begun || '\n' in ps[0].g));
    }
  }

  /** The lines are those of the whitespace. */
  lemma {:induction false} MarksOfGaps(ps: seq<Piece>, g: string, k: nat)
    requires k < |Written(ps)|
    ensures Marks(ps, '\n' in g)[k] == ('\n' in Gaps(ps, g)[k])
    decreases |ps|
  {
    if ps[0].Gap? {
      MarksOfGaps(ps[1..], g + ps[0].g, k);
    } else if k > 0 {
      MarksOfGaps(ps[1..], "", k - 1);
    }
  }

  lemma {:induction false} BreakIsGap(u: Runes, ts: seq<Token>, i: nat)
    requires i < |ts|
    ensures BreaksBefore(u, ts, i) == ('\n' in GapBefore(u, ts, i))
  {
    hide ScanAt, OwnLine, Line;
    var sc := ScanAt(u, ts, i);
    var own := OwnLine(u, ts, i, sc);
    if sc.begun {
      assert GapBefore(u, ts, i)[0] == Line(sc.line)[0];
    } else if own.Some? {
      assert GapBefore(u, ts, i)[0] == Line(own.value)[0];
    }
  }

  lemma {:induction false} GapsAt(u: Runes, ts: seq<Token>, i: nat, k: nat)
    requires k < i <= |ts|
    ensures GapsTo(u, ts, i)[k] == GapBefore(u, ts, k)
    decreases i
  {
    hide GapBefore;
    if k < i - 1 {
      GapsAt(u, ts, i - 1, k);
    }
  }
}
