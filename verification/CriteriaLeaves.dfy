/**
  What a predicate list is rejected for and what it binds, said of its leaves: the
  conditions and searches in it, groups opened, from left to right.
 */
module CriteriaLeaves {
  import opened SqlText
  import opened Criteria
  import Like

  // ----- column references -----

  predicate IsPlainName(s: string) {
    && s != [] && (s[0] in "_" || 'a' <= s[0] <= 'z' || 'A' <= s[0] <= 'Z')
    && forall i | 0 < i < |s| :: InName(s[i])
  }

  predicate InName(c: char) {
    'a' <= c <= 'z' || 'A' <= c <= 'Z' || '0' <= c <= '9' || c == '_' || c == '$'
  }

  /** "name", `name` or [name], where the name may hold blanks. */
  predicate IsQuotedName(s: string) {
    && |s| > 2
    && (s[0], s[|s| - 1]) in {('"', '"'), ('`', '`'), ('[', ']')}
    && forall i | 0 < i < |s| - 1 :: InName(s[i]) || s[i] == ' '
  }

  predicate IsName(s: string) {
    IsPlainName(s) || IsQuotedName(s)
  }

  /** The names with dots between. */
  function Dotted(names: seq<string>): string {
    if names == [] then "" else if |names| == 1 then names[0] else names[0] + "." + Dotted(names[1..])
  }

  /** A column reference: one to three names with dots between. */
  ghost predicate IsColumn(s: string) {
    exists names: seq<string> :: Refers(names, 3) && s == Dotted(names)
  }

  predicate Refers(names: seq<string>, most: nat) {
    1 <= |names| <= most && forall i | 0 <= i < |names| :: IsName(names[i])
  }

  lemma {:induction false} NameRunIs(s: string)
    ensures var n := NameRun(s); (forall i | 0 <= i < n :: InName(s[i])) && (n < |s| ==> !InName(s[n]))
  {
    if s != [] && NameChar(s[0]) {
      NameRunIs(s[1..]);
      assert forall i | 0 < i < |s| :: s[i] == s[1..][i - 1];
    }
  }

  lemma {:induction false} QuotedRunIs(s: string)
    ensures var n := QuotedRun(s);
            && (forall i | 0 <= i < n :: InName(s[i]) || s[i] == ' ') && (n < |s| ==> !InName(s[n]) && s[n] != ' ')
  {
    if s != [] && (NameChar(s[0]) || s[0] == ' ') {
      QuotedRunIs(s[1..]);
      assert forall i | 0 < i < |s| :: s[i] == s[1..][i - 1];
    }
  }

  /** A segment is a name. */
  lemma {:induction false} SegmentIsName(s: string)
    requires Segment(s) > 0
    ensures IsName(s[..Segment(s)])
  {
    hide NameRun, QuotedRun;
    var name := s[..Segment(s)];
    if Letter(s[0]) || s[0] == '_' {
      NameRunIs(s[1..]);
      assert forall i | 0 < i < |name| :: name[i] == s[1..][i - 1];
      assert IsPlainName(name);
    } else {
      QuotedRunIs(s[1..]);
      assert forall i | 0 < i < |name| - 1 :: name[i] == s[1..][i - 1];
      assert IsQuotedName(name);
    }
  }

  /** A name is read as one segment, unless a rune of a name follows it. */
  lemma {:induction false} NameIsSegment(name: string, rest: string)
    requires IsName(name) && (rest == [] || rest[0] == '.')
    ensures Segment(name + rest) == |name|
  {
    hide NameRun, QuotedRun;
    var s := name + rest;
    assert s[0] == name[0];
    if IsPlainName(name) {
      NameRunIs(s[1..]);
      assert forall i | 0 < i < |name| :: s[1..][i - 1] == name[i];
      assert rest != [] ==> s[1..][|name| - 1] == '.';
    } else {
      QuotedRunIs(s[1..]);
      assert forall i | 0 < i < |name| - 1 :: s[1..][i - 1] == name[i];
      assert s[1..][|name| - 2] == name[|name| - 1];
    }
  }

  lemma {:induction false} SegmentsAreNames(s: string, most: nat) returns (names: seq<string>)
    requires Segments(s, most) && most > 0
    ensures Refers(names, most) && s == Dotted(names)
    decreases most
  {
    hide Segment, IsName;
    var n := Segment(s);
    SegmentIsName(s);
    if n == |s| {
      assert s[..n] == s;
      names := [s];
    } else {
      var more := SegmentsAreNames(s[n + 1..], most - 1);
      names := [s[..n]] + more;
      assert names[1..] == more;
      assert s == s[..n] + "." + s[n + 1..];
    }
  }

  lemma {:induction false} NamesAreSegments(names: seq<string>, most: nat)
    requires Refers(names, most)
    ensures Segments(Dotted(names), most)
    decreases most
  {
    hide Segment, IsName;
    var s := Dotted(names);
    if |names| == 1 {
      assert names[0] + [] == names[0];
      NameIsSegment(names[0], []);
    } else {
      NamesAreSegments(names[1..], most - 1);
      var rest := "." + Dotted(names[1..]);
      assert s == names[0] + rest;
      NameIsSegment(names[0], rest);
      assert s[|names[0]| + 1..] == Dotted(names[1..]);
      assert s[|names[0]|] == '.';
    }
    NameIsLong(names[0]);
  }

  lemma {:induction false} NameIsLong(s: string)
    requires IsName(s)
    ensures |s| > 0
  {
  }

  /** The test for a column reference accepts exactly one to three names with dots between. */
  lemma {:induction false} IdentifierExactly(s: string)
    ensures IsIdentifier(s) <==> IsColumn(s)
  {
    hide Segments, Refers, Dotted;
    if IsIdentifier(s) {
      var names := SegmentsAreNames(s, 3);
    }
    if IsColumn(s) {
      var names: seq<string> :| Refers(names, 3) && s == Dotted(names);
      NamesAreSegments(names, 3);
    }
  }

  // ----- leaves -----

  /** The conditions and searches of a list, groups opened, in the order they are written. */
  function Leaves(ps: seq<Predicate>): (ls: seq<Predicate>)
    ensures forall l | l in ls :: !l.Connector? && !l.Group?
  {
    if ps == [] then []
    else
      (match ps[0]
       case Connector(_) => []
       case Group(children) => Leaves(children)
       case _ => [ps[0]]) + Leaves(ps[1..])
  }

  /** The value has the shape the operator needs. */
  predicate Shaped(d: Dialect, p: Predicate)
    requires p.Cond?
  {
    match p.operator
    case Between => p.value.List? && |p.value.items| == 2
    case Overlaps => d.arrays && p.value.List? && p.value.typed
    case Contains | NotContains | Likes | NotLikes => p.literal ==> p.value.Str?
    case _ => true
  }

  /** Why a leaf rejects its list. */
  ghost function Fault(d: Dialect, p: Predicate): Option<Error> {
    match p
    case Invalid(e) => Some(e)
    case Match(s) => if d.search(s).Some? then None else Some(InvalidValue(s))
    case Cond(field, raw, _, _, _) =>
      if !raw && !IsColumn(field) then Some(InvalidField(field))
      else if Shaped(d, p) then None
      else Some(InvalidValue(field))
    case _ => None
  }

  /** The parameters of a leaf: a list is one parameter where the dialect has arrays, and
      one for each of its values elsewhere. */
  function Binds(d: Dialect, p: Predicate): seq<Value> {
    match p
    case Match(s) => if d.search(s).Some? then d.search(s).value else []
    case Cond(_, _, op, v, literal) =>
      (match op
       case Check(_) => []
       case Compare(_) => [v]
       case Between => if v.List? then v.items else []
       case Overlaps => if v.List? && v.items == [] then [] else [v]
       case In | NotIn => if v.List? && (v.items == [] || !(d.arrays && v.typed)) then v.items else [v]
       case _ => [if literal && v.Str? then Str("%" + Like.Escaped(d.extra, v.s) + "%") else v])
    case _ => []
  }

  /** The first fault, from left to right. */
  ghost function FirstFault(d: Dialect, ls: seq<Predicate>): Option<Error> {
    if ls == [] then None else if Fault(d, ls[0]).Some? then Fault(d, ls[0]) else FirstFault(d, ls[1..])
  }

  function AllBinds(d: Dialect, ls: seq<Predicate>): seq<Value> {
    if ls == [] then [] else Binds(d, ls[0]) + AllBinds(d, ls[1..])
  }

  lemma {:induction false} FaultsConcat(d: Dialect, a: seq<Predicate>, b: seq<Predicate>)
    ensures FirstFault(d, a + b) == First(FirstFault(d, a), FirstFault(d, b))
    ensures AllBinds(d, a + b) == AllBinds(d, a) + AllBinds(d, b)
  {
    hide Fault, Binds;
    if a == [] {
      assert a + b == b;
    } else {
      assert (a + b)[1..] == a[1..] + b;
      FaultsConcat(d, a[1..], b);
    }
  }

  /** The error of a condition is its fault, and what it binds is its own. */
  lemma {:induction false} ConditionIsLeaf(d: Dialect, p: Predicate)
    requires p.Cond?
    ensures ConditionError(d, p) == Fault(d, p) && ConditionParams(d, p) == Binds(d, p)
  {
    hide IsIdentifier, IsColumn, Like.Escaped;
    IdentifierExactly(p.field);
  }

  lemma {:induction false} OneLeaf(d: Dialect, p: Predicate)
    ensures FirstFault(d, [p]) == Fault(d, p) && AllBinds(d, [p]) == Binds(d, p)
  {
    hide Fault, Binds;
    assert [p][1..] == [];
  }

  lemma {:induction false} ClauseByLeaves(d: Dialect, ps: seq<Predicate>)
    ensures ClauseError(d, ps) == FirstFault(d, Leaves(ps)) && ClauseParams(d, ps) == AllBinds(d, Leaves(ps))
    decreases ps
  {
    hide ConditionError, ConditionParams, IsColumn, Shaped, FirstFault, AllBinds;
    if ps == [] {
      NoLeaves(d);
    } else {
      var p, rest := ps[0], Leaves(ps[1..]);
      ClauseByLeaves(d, ps[1..]);
      if p.Group? {
        ClauseByLeaves(d, p.children);
        FaultsConcat(d, Leaves(p.children), rest);
      } else if p.Connector? {
        assert Leaves(ps) == rest;
      } else {
        OneLeaf(d, p);
        FaultsConcat(d, [p], rest);
        if p.Cond? {
          ConditionIsLeaf(d, p);
        }
      }
    }
  }

  lemma {:induction false} NoLeaves(d: Dialect)
    ensures FirstFault(d, []) == None && AllBinds(d, []) == []
  {
  }

  lemma {:induction false} FirstFaultIs(d: Dialect, ls: seq<Predicate>)
    ensures FirstFault(d, ls).None? <==> forall i | 0 <= i < |ls| :: Fault(d, ls[i]).None?
    ensures forall i | 0 <= i < |ls| && Fault(d, ls[i]).Some? && (forall j | 0 <= j < i :: Fault(d, ls[j]).None?) ::
              FirstFault(d, ls) == Fault(d, ls[i])
  {
    hide Fault;
    if ls != [] {
      FirstFaultIs(d, ls[1..]);
      assert forall i | 0 < i < |ls| :: ls[i] == ls[1..][i - 1];
      assert forall i | 0 <= i < |ls[1..]| :: ls[1..][i] == ls[i + 1];
      forall i | 0 <= i < |ls| && Fault(d, ls[i]).Some? && (forall j | 0 <= j < i :: Fault(d, ls[j]).None?)
        ensures FirstFault(d, ls) == Fault(d, ls[i])
      {
        if i > 0 {
          assert Fault(d, ls[0]).None?;
          assert ls[1..][i - 1] == ls[i];
        }
      }
    }
  }

  /** A list is accepted exactly when no leaf has a fault, and otherwise rejected for the
      first one; the parameters are the given ones followed by those of the leaves in order. */
  lemma {:induction false} RejectsExactly(args: seq<Value>, ps: seq<Predicate>, d: Dialect)
    ensures var b, ls := BuiltAfter(args, ps, d), Leaves(ps);
            && (b.Accepted? <==> forall i | 0 <= i < |ls| :: Fault(d, ls[i]).None?)
            && (forall i | 0 <= i < |ls| && Fault(d, ls[i]).Some? && (forall j | 0 <= j < i :: Fault(d, ls[j]).None?) ::
                  b == Rejected(Fault(d, ls[i]).value))
            && (b.Accepted? ==> b.params == args + AllBinds(d, ls))
  {
    hide Fault, FirstFault, AllBinds, Leaves, Clause, ClauseParams, ClauseError;
    ClauseByLeaves(d, ps);
    FirstFaultIs(d, Leaves(ps));
  }
}
