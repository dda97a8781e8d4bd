/**
  The keys of a scheduled job: one lease, one claim per slot, one counter of fencing
  tokens. The counter's key is computed from the key that is being acquired.
 */
module CronKeys {

  const PREFIX := "gofi:cron:{"

  /** The start shared by all of a job's keys. */
  function Head(name: string): string {
    PREFIX + name + "}"
  }

  function LeaseKey(name: string): string {
    Head(name) + ":lease"
  }

  function SlotKey(name: string, stamp: string): string {
    Head(name) + ":slot:" + stamp
  }

  /** The first occurrence of c in s, or -1. */
  function IndexOf(s: string, c: char): (i: int)
    ensures -1 <= i < |s|
    ensures i >= 0 ==> s[i] == c && c !in s[..i]
    ensures i < 0 ==> c !in s
  {
    if s == [] then -1
    else if s[0] == c then 0
    else
      var i := IndexOf(s[1..], c);
      assert i >= 0 ==> s[..i + 1] == [s[0]] + s[1..][..i];
      if i < 0 then -1 else i + 1
  }

  /** The counter: the key up to its hash tag, and ":fence". */
  function FenceKey(key: string): string {
    var i := IndexOf(key, '}');
    if i >= 0 then key[..i + 1] + ":fence" else key + ":fence"
  }

  /** How a time is written into a slot's key: in UTC, without braces. */
  datatype Stamps = Stamps(text: int -> string)

  ghost predicate Lawful(stamps: Stamps) {
    && (forall t :: stamps.text(t) != [] && stamps.text(t)[|stamps.text(t)| - 1] == 'Z' && '}' !in stamps.text(t))
    && (forall t, u :: stamps.text(t) == stamps.text(u) ==> t == u)
  }

  datatype JobKey = Lease(name: string) | Slot(name: string, at: int)

  function Text(stamps: Stamps, k: JobKey): string {
    match k
    case Lease(name) => LeaseKey(name)
    case Slot(name, at) => SlotKey(name, stamps.text(at))
  }

  // ----- all of a job's keys share one counter -----

  lemma {:induction false} FirstIsEarly(a: string, b: string, c: char)
    requires c in a
    ensures IndexOf(a + b, c) == IndexOf(a, c)
  {
    if a[0] != c {
      assert (a + b)[1..] == a[1..] + b;
      FirstIsEarly(a[1..], b, c);
    }
  }

  lemma {:induction false} FenceOfHead(name: string, rest: string)
    ensures FenceKey(Head(name) + rest) == FenceKey(Head(name))
  {
    var h := Head(name);
    assert h[|h| - 1] == '}';
    FirstIsEarly(h, rest, '}');
    var i := IndexOf(h, '}');
    assert (h + rest)[..i + 1] == h[..i + 1];
  }

  /** The lease and every slot of a job draw their tokens from the same counter. */
  lemma {:induction false} OneFencePerJob(stamps: Stamps, k: JobKey)
    ensures FenceKey(Text(stamps, k)) == FenceKey(LeaseKey(k.name))
  {
    FenceOfHead(k.name, ":lease");
    match k
    case Lease(_) =>
    case Slot(name, at) =>
      FenceOfHead(name, ":slot:" + stamps.text(at));
      assert SlotKey(name, stamps.text(at)) == Head(name) + (":slot:" + stamps.text(at));
  }

  // ----- no two keys are the same -----

  /** The last five characters. */
  function Tail5(s: string): string
    requires |s| >= 5
  {
    s[|s| - 5..]
  }

  lemma {:induction false} KeyEnds(stamps: Stamps, k: JobKey)
    requires Lawful(stamps)
    ensures |Text(stamps, k)| >= 5
    ensures k.Lease? ==> Tail5(Text(stamps, k)) == "lease"
    ensures k.Slot? ==> var s := Text(stamps, k); s[|s| - 1] == 'Z'
  {
  }

  /** A counter is never a lease nor a claim. */
  lemma {:induction false} FenceIsNoJobKey(stamps: Stamps, k: JobKey, key: string)
    requires Lawful(stamps)
    ensures Text(stamps, k) != FenceKey(key)
  {
    var f := FenceKey(key);
    assert Tail5(f) == "fence" && f[|f| - 1] == 'e' && f[|f| - 5] == 'f';
    KeyEnds(stamps, k);
    var s := Text(stamps, k);
    if k.Lease? {
      assert Tail5(s)[0] == 'l';
    }
  }

  function LastBrace(s: string): int {
    if s == [] then -1
    else if s[|s| - 1] == '}' then |s| - 1
    else LastBrace(s[..|s| - 1])
  }

  lemma {:induction false} BraceAt(a: string, x: string)
    requires '}' !in x
    ensures LastBrace(a + "}" + x) == |a|
    decreases |x|
  {
    var s := a + "}" + x;
    if x == [] {
      assert s == a + "}";
    } else {
      assert s[..|s| - 1] == a + "}" + x[..|x| - 1];
      BraceAt(a, x[..|x| - 1]);
    }
  }

  /** What precedes the last brace of a key determines it. */
  lemma {:induction false} SameHead(a: string, x: string, b: string, y: string)
    requires a + "}" + x == b + "}" + y && '}' !in x && '}' !in y
    ensures a == b && x == y
  {
    BraceAt(a, x);
    BraceAt(b, y);
    var s, r := a + "}" + x, b + "}" + y;
    assert s[..|a|] == a && s[|a| + 1..] == x;
    assert r[..|b|] == b && r[|b| + 1..] == y;
  }

  /** Different leases and slots, of the same job or of others, have different keys. */
  lemma {:induction false} KeysInjective(stamps: Stamps, k: JobKey, j: JobKey)
    requires Lawful(stamps) && Text(stamps, k) == Text(stamps, j)
    ensures k == j
  {
    KeyEnds(stamps, k);
    KeyEnds(stamps, j);
    var x := if k.Lease? then ":lease" else ":slot:" + stamps.text(k.at);
    var y := if j.Lease? then ":lease" else ":slot:" + stamps.text(j.at);
    assert Text(stamps, k) == PREFIX + k.name + "}" + x;
    assert Text(stamps, j) == PREFIX + j.name + "}" + y;
    SameHead(PREFIX + k.name, x, PREFIX + j.name, y);
    assert (PREFIX + k.name)[|PREFIX|..] == k.name && (PREFIX + j.name)[|PREFIX|..] == j.name;
    if k.Slot? && j.Slot? {
      assert x[6..] == stamps.text(k.at) && y[6..] == stamps.text(j.at);
    }
  }
}
