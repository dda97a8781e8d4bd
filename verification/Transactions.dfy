/**
  Transactions bound to a context: what Execute does with nested calls, retries, failures
  and panics, for any program and any pattern of faults of the databases.
 */
module Transactions {

  type Pool = nat
  type Tx = nat

  datatype Option<+T> = None | Some(value: T)

  // ----- contexts -----

  datatype Binding = Binding(pool: Pool, tx: Tx)

  /** raw is a transaction stored in the context without its pool. */
  datatype Context = Context(bindings: seq<Binding>, raw: Option<Tx>)

  function WithTx(ctx: Context, pool: Pool, tx: Tx): Context {
    Context(ctx.bindings + [Binding(pool, tx)], Some(tx))
  }

  /** The binding of the pool made last. */
  function LastFor(bs: seq<Binding>, pool: Pool): Option<Tx> {
    if bs == [] then None
    else if bs[|bs| - 1].pool == pool then Some(bs[|bs| - 1].tx)
    else LastFor(bs[..|bs| - 1], pool)
  }

  function TxFor(ctx: Context, pool: Pool): Option<Tx> {
    if ctx.bindings == [] then ctx.raw else LastFor(ctx.bindings, pool)
  }

  /** The loop of TxFor, from the last binding to the first. */
  method FindTx(ctx: Context, pool: Pool) returns (tx: Option<Tx>)
    ensures tx == TxFor(ctx, pool)
    ensures ctx.bindings == [] ==> tx == ctx.raw
    ensures ctx.bindings != [] && tx.None? ==> forall i | 0 <= i < |ctx.bindings| :: ctx.bindings[i].pool != pool
    ensures ctx.bindings != [] && tx.Some? ==>
              exists i | 0 <= i < |ctx.bindings| ::
                && ctx.bindings[i] == Binding(pool, tx.value)
                && forall j | i < j < |ctx.bindings| :: ctx.bindings[j].pool != pool
  {
    if |ctx.bindings| == 0 {
      return ctx.raw;
    }
    var i := |ctx.bindings|;
    assert ctx.bindings[..i] == ctx.bindings;
    while i > 0
      invariant 0 <= i <= |ctx.bindings|
      invariant LastFor(ctx.bindings[..i], pool) == LastFor(ctx.bindings, pool)
      invariant forall j | i <= j < |ctx.bindings| :: ctx.bindings[j].pool != pool
    {
      i := i - 1;
      assert ctx.bindings[..i + 1][..i] == ctx.bindings[..i];
      if ctx.bindings[i].pool == pool {
        assert ctx.bindings[i] == Binding(pool, ctx.bindings[i].tx);
        return Some(ctx.bindings[i].tx);
      }
    }
    return None;
  }

  /** No pool has two transactions. */
  predicate Distinct(ctx: Context) {
    forall i, j | 0 <= i < j < |ctx.bindings| :: ctx.bindings[i].pool != ctx.bindings[j].pool
  }

  // ----- backoff -----

  const BASE_DELAY: int := 20_000_000
  const MAX_DELAY: int := 1_000_000_000
  const TWO_63: int := 0x8000_0000_0000_0000
  const TWO_64: int := 0x1_0000_0000_0000_0000

  function Pow2(n: nat): (p: nat)
    ensures p > 0
  {
    if n == 0 then 1 else 2 * Pow2(n - 1)
  }

  /** A 64-bit signed shift. */
  function Shifted(x: int, n: nat): int {
    var bits := (x * Pow2(n)) % TWO_64;
    if bits >= TWO_63 then bits - TWO_64 else bits
  }

  function Delay(attempt: nat): int {
    var d := Shifted(BASE_DELAY, attempt);
    if d < MAX_DELAY then d else MAX_DELAY
  }

  /** The jitter draws a number below this one, and panics when it is not positive. Go's
      division truncates. */
  function JitterBound(attempt: nat): int {
    var d := Delay(attempt);
    (if d >= 0 then d / 2 else -((-d) / 2)) + 1
  }

  // ----- programs -----

  /** What a function passed to Execute does. A nested Execute whose error is handled does
      not end the function; each attempt may run another body. */
  datatype Stmt =
    | Insert(pool: Pool, row: nat)
    | Execute(pool: Pool, retries: int, body: Body, later: seq<Body>, handled: bool)
    | Fail(retryable: bool)
    | Panic

  datatype Body = Body(stmts: seq<Stmt>)

  datatype Result = Done | Error(retryable: bool) | Panicked

  /** A transaction that has begun and not ended. */
  datatype Open = Open(pool: Pool, rows: seq<nat>)

  /** ended lists the transactions by the call that ended them, commit or rollback. */
  datatype World = World(rows: map<Pool, seq<nat>>, open: map<Tx, Open>, next: Tx, ended: seq<Tx>, clock: nat)

  /** An error of a rollback, with a state of its own or without. It is wrapped before the
      error that led to the rollback, so that its state is the one that counts. */
  datatype Failure = Stateless | State(retryable: bool)

  /** Which calls of the databases fail, by the time they are made; Some(retryable). */
  datatype Faults = Faults(begins: nat -> Option<bool>, commits: nat -> Option<bool>, rollbacks: nat -> Option<Failure>,
                           inserts: nat -> Option<bool>, cancelled: nat -> bool)

  function Rows(w: World, pool: Pool): seq<nat> {
    if pool in w.rows then w.rows[pool] else []
  }

  function Insertion(f: Faults, w: World, ctx: Context, pool: Pool, row: nat): (World, Result) {
    var w1 := w.(clock := w.clock + 1);
    if f.inserts(w.clock).Some? then (w1, Error(f.inserts(w.clock).value))
    else match TxFor(ctx, pool)
      case None => (w1.(rows := w.rows[pool := Rows(w, pool) + [row]]), Done)
      case Some(t) =>
        if t !in w.open then (w1, Error(false))
        else (w1.(open := w.open[t := Open(w.open[t].pool, w.open[t].rows + [row])]), Done)
  }

  function Rollback(f: Faults, w: World, t: Tx, r: Result): (World, Result) {
    (w.(open := w.open - {t}, ended := w.ended + [t], clock := w.clock + 1),
     match r
     case Error(retryable) =>
       var failure := f.rollbacks(w.clock);
       Error(if failure.Some? && failure.value.State? then failure.value.retryable else retryable)
     case _ => r)
  }

  /** A commit that fails has no effect. */
  function Commit(f: Faults, w: World, t: Tx): (World, Result) {
    var w1 := w.(open := w.open - {t}, ended := w.ended + [t], clock := w.clock + 1);
    if f.commits(w.clock).Some? then (w1, Error(f.commits(w.clock).value))
    else if t in w.open then
      var p := w.open[t].pool;
      (w1.(rows := w.rows[p := Rows(w, p) + w.open[t].rows]), Done)
    else (w1, Done)
  }

  function BodyAt(body: Body, later: seq<Body>, attempt: nat): Body {
    if 0 < attempt <= |later| then later[attempt - 1] else body
  }

  // ----- executing -----

  function RunAll(f: Faults, w: World, ctx: Context, stmts: seq<Stmt>): (World, Result)
    requires Distinct(ctx)
    decreases stmts
  {
    if stmts == [] then (w, Done)
    else
      var (w1, r) := RunOne(f, w, ctx, stmts[0]);
      if r.Done? || (r.Error? && stmts[0].Execute? && stmts[0].handled) then RunAll(f, w1, ctx, stmts[1..]) else (w1, r)
  }

  function RunOne(f: Faults, w: World, ctx: Context, s: Stmt): (World, Result)
    requires Distinct(ctx)
    decreases s, 1, 0
  {
    match s
    case Insert(pool, row) => Insertion(f, w, ctx, pool, row)
    case Fail(retryable) => (w, Error(retryable))
    case Panic => (w, Panicked)
    case Execute(pool, retries, body, later, _) =>
      var r := Retry(f, w, ctx, s, 0);
      (r.0, r.1)
  }

  /** One attempt: joins the pool's transaction, or begins one and ends it. */
  function Attempt(f: Faults, w: World, ctx: Context, pool: Pool, body: Body): (World, Result)
    requires Distinct(ctx)
    decreases body
  {
    if TxFor(ctx, pool).Some? then RunAll(f, w, ctx, body.stmts)
    else if f.begins(w.clock).Some? then (w.(clock := w.clock + 1), Error(f.begins(w.clock).value))
    else
      var t := w.next;
      var begun := w.(open := w.open[t := Open(pool, [])], next := t + 1, clock := w.clock + 1);
      BindingStaysDistinct(ctx, pool, t);
      var (w1, r) := RunAll(f, begun, WithTx(ctx, pool, t), body.stmts);
      if r.Done? then Commit(f, w1, t) else Rollback(f, w1, t, r)
  }

  /** The loop of attempts; also how many there were. */
  function Retry(f: Faults, w: World, ctx: Context, s: Stmt, attempt: nat): (World, Result, nat)
    requires Distinct(ctx) && s.Execute?
    decreases s, 0, if s.retries > attempt then s.retries - attempt else 0
  {
    var (w1, r) := Attempt(f, w, ctx, s.pool, BodyAt(s.body, s.later, attempt));
    if !r.Error? || attempt >= s.retries || !r.retryable then (w1, r, attempt + 1)
    else if TxFor(ctx, s.pool).Some? then (w1, r, attempt + 1)
    else if JitterBound(attempt) <= 0 then (w1, Panicked, attempt + 1)
    else if f.cancelled(w1.clock) then (w1.(clock := w1.clock + 1), r, attempt + 1)
    else Retry(f, w1.(clock := w1.clock + 1), ctx, s, attempt + 1)
  }

  lemma {:induction false} LastForNone(bs: seq<Binding>, pool: Pool, i: nat)
    requires LastFor(bs, pool).None? && i < |bs|
    ensures bs[i].pool != pool
    decreases |bs|
  {
    if i < |bs| - 1 {
      LastForNone(bs[..|bs| - 1], pool, i);
    }
  }

  /** A pool is only bound when it has no transaction yet. */
  lemma {:induction false} BindingStaysDistinct(ctx: Context, pool: Pool, t: Tx)
    requires Distinct(ctx) && TxFor(ctx, pool).None?
    ensures Distinct(WithTx(ctx, pool, t)) && TxFor(WithTx(ctx, pool, t), pool) == Some(t)
  {
    var bs := ctx.bindings;
    forall i | 0 <= i < |bs|
      ensures bs[i].pool != pool
    {
      LastForNone(bs, pool, i);
    }
  }

  // ----- the loops -----

  /** The databases, changed by the calls below. */
  class Databases {
    var w: World

    constructor (w: World)
      ensures this.w == w
    {
      this.w := w;
    }

    /** Runs a function passed to Execute. */
    method Call(f: Faults, ctx: Context, stmts: seq<Stmt>) returns (r: Result)
      requires Distinct(ctx)
      modifies this
      ensures (w, r) == RunAll(f, old(w), ctx, stmts)
      decreases stmts, 2, 0
    {
      hide Insertion, Retry;
      for i := 0 to |stmts|
        invariant RunAll(f, w, ctx, stmts[i..]) == RunAll(f, old(w), ctx, stmts)
      {
        var s := stmts[i];
        assert stmts[i..][0] == s && stmts[i..][1..] == stmts[i + 1..];
        match s {
          case Insert(pool, row) =>
            var next := Insertion(f, w, ctx, pool, row);
            w, r := next.0, next.1;
          case Fail(retryable) => r := Error(retryable);
          case Panic => r := Panicked;
          case Execute(_, _, _, _, _) =>
            var runs;
            r, runs := ExecuteWithRetry(f, ctx, s);
        }
        if !r.Done? && !(r.Error? && s.Execute? && s.handled) {
          return;
        }
      }
      return Done;
    }

    method ExecuteTransaction(f: Faults, ctx: Context, pool: Pool, body: Body) returns (r: Result)
      requires Distinct(ctx)
      modifies this
      ensures (w, r) == Attempt(f, old(w), ctx, pool, body)
      decreases body, 2, 0
    {
      hide RunAll, Commit, Rollback;
      var bound := FindTx(ctx, pool);
      if bound.Some? {
        r := Call(f, ctx, body.stmts);
        return;
      }
      if f.begins(w.clock).Some? {
        r := Error(f.begins(w.clock).value);
        w := w.(clock := w.clock + 1);
        return;
      }
      var t := w.next;
      w := w.(open := w.open[t := Open(pool, [])], next := t + 1, clock := w.clock + 1);
      BindingStaysDistinct(ctx, pool, t);
      r := Call(f, WithTx(ctx, pool, t), body.stmts);
      var end := if r.Done? then Commit(f, w, t) else Rollback(f, w, t, r);
      w, r := end.0, end.1;
    }

    /** The loop of attempts. */
    method ExecuteWithRetry(f: Faults, ctx: Context, s: Stmt) returns (r: Result, runs: nat)
      requires Distinct(ctx) && s.Execute?
      modifies this
      ensures (w, r, runs) == Retry(f, old(w), ctx, s, 0)
      decreases s, 2, 0
    {
      hide Attempt, JitterBound;
      var attempt := 0;
      while true
        invariant 0 <= attempt
        invariant Retry(f, w, ctx, s, attempt) == Retry(f, old(w), ctx, s, 0)
        decreases if s.retries > attempt then s.retries - attempt else 0
      {
        r := ExecuteTransaction(f, ctx, s.pool, BodyAt(s.body, s.later, attempt));
        if !r.Error? || attempt >= s.retries || !r.retryable {
          return r, attempt + 1;
        }
        var nested := FindTx(ctx, s.pool);
        if nested.Some? {
          return r, attempt + 1;
        }
        if JitterBound(attempt) <= 0 {
          return Panicked, attempt + 1;
        }
        w := w.(clock := w.clock + 1);
        if f.cancelled(w.clock - 1) {
          return r, attempt + 1;
        }
        attempt := attempt + 1;
      }
    }
  }
}
