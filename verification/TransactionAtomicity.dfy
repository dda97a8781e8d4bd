/**
  All or nothing: what Execute leaves in its pool, and how often it runs its function.
 */
module TransactionAtomicity {
  import opened Transactions
  import opened TransactionLaws

  // ----- any program, any number of pools -----

  /** The run inside a new transaction leaves the pool alone. */
  lemma {:induction false} RunLeavesPool(f: Faults, w: World, ctx: Context, pool: Pool, stmts: seq<Stmt>)
    requires Distinct(ctx) && Agree(w, ctx) && TxFor(ctx, pool).None?
    ensures Distinct(WithTx(ctx, pool, w.next))
    ensures var w1 := RunAll(f, Begun(w, pool), WithTx(ctx, pool, w.next), stmts).0;
            w.next in w1.open && w1.open[w.next].pool == pool && Rows(w1, pool) == Rows(w, pool)
  {
    hide Agree, RunAll;
    var ctx' := WithTx(ctx, pool, w.next);
    BindingStaysDistinct(ctx, pool, w.next);
    BegunAgrees(w, ctx, pool);
    RunAllKept(f, Begun(w, pool), ctx', stmts);
    assert Bound(ctx', pool);
  }

  /** One attempt of an outermost Execute changes its pool only if it succeeds, and then by
      the rows its transaction holds. */
  lemma {:induction false} AttemptIsAtomic(f: Faults, w: World, ctx: Context, pool: Pool, body: Body)
    requires Distinct(ctx) && Agree(w, ctx) && TxFor(ctx, pool).None?
    ensures var (w', r) := Attempt(f, w, ctx, pool, body);
            if r.Done? then Rows(w, pool) <= Rows(w', pool) else Rows(w', pool) == Rows(w, pool)
  {
    hide RunAll, Agree, Distinct;
    RunLeavesPool(f, w, ctx, pool, body.stmts);
  }

  /** An Execute that does not succeed, by an error or a panic, leaves its pool as it was,
      whatever else its function did and however often it was run. */
  lemma {:induction false} FailureLeavesPoolUnchanged(f: Faults, w: World, ctx: Context, s: Stmt, attempt: nat)
    requires Distinct(ctx) && Agree(w, ctx) && s.Execute? && TxFor(ctx, s.pool).None?
    ensures var (w', r, _) := Retry(f, w, ctx, s, attempt);
            if r.Done? then Rows(w, s.pool) <= Rows(w', s.pool) else Rows(w', s.pool) == Rows(w, s.pool)
    decreases if s.retries > attempt then s.retries - attempt else 0
  {
    hide Attempt, Agree, JitterBound, Distinct;
    var body := BodyAt(s.body, s.later, attempt);
    AttemptIsAtomic(f, w, ctx, s.pool, body);
    AttemptKept(f, w, ctx, s.pool, body);
    var (w1, r) := Attempt(f, w, ctx, s.pool, body);
    AgreeKept(ctx, w, w1);
    if r.Error? && attempt < s.retries && r.retryable && JitterBound(attempt) > 0 && !f.cancelled(w1.clock) {
      var w2 := w1.(clock := w1.clock + 1);
      SameAgrees(ctx, w1, w2);
      FailureLeavesPoolUnchanged(f, w2, ctx, s, attempt + 1);
    }
  }

  lemma {:induction false} SameAgrees(ctx: Context, w: World, w': World)
    requires Agree(w, ctx) && w' == w.(clock := w'.clock)
    ensures Agree(w', ctx)
  {
  }

  /** Every transaction begun has ended, by one commit or rollback, when Execute returns or
      panics; those of the caller are still open. */
  lemma {:induction false} EveryTransactionEndsOnce(f: Faults, w: World, ctx: Context, s: Stmt)
    requires Distinct(ctx) && Agree(w, ctx) && s.Execute?
    ensures var w' := RunOne(f, w, ctx, s).0;
            && w'.open.Keys == w.open.Keys && w.ended <= w'.ended && w.next <= w'.next
            && forall t | w.next <= t < w'.next :: multiset(w'.ended[|w.ended|..])[t] == 1
  {
    hide RunOne, Agree, Distinct;
    RunOneKept(f, w, ctx, s);
  }

  // ----- how often -----

  function Most(retries: int): nat {
    if retries > 0 then retries + 1 else 1
  }

  /** Never more runs than the retries allow; a call that joins a transaction runs once. */
  lemma {:induction false} RunsBounded(f: Faults, w: World, ctx: Context, s: Stmt, attempt: nat)
    requires Distinct(ctx) && s.Execute? && attempt < Most(s.retries)
    ensures attempt < Retry(f, w, ctx, s, attempt).2 <= Most(s.retries)
    ensures TxFor(ctx, s.pool).Some? ==> Retry(f, w, ctx, s, attempt).2 == attempt + 1
    decreases if s.retries > attempt then s.retries - attempt else 0
  {
    hide Attempt, JitterBound, Distinct;
    var (w1, r) := Attempt(f, w, ctx, s.pool, BodyAt(s.body, s.later, attempt));
    if r.Error? && attempt < s.retries && r.retryable && TxFor(ctx, s.pool).None? && JitterBound(attempt) > 0
       && !f.cancelled(w1.clock) {
      RunsBounded(f, w1.(clock := w1.clock + 1), ctx, s, attempt + 1);
    }
  }

  // ----- one pool: a reference without transactions -----

  /** All statements are on the pool. */
  predicate OnPool(stmts: seq<Stmt>, pool: Pool)
    decreases stmts
  {
    stmts == [] || (OneOnPool(stmts[0], pool) && OnPool(stmts[1..], pool))
  }

  predicate OneOnPool(s: Stmt, pool: Pool)
    decreases s
  {
    match s
    case Insert(p, _) => p == pool
    case Execute(p, _, body, later, _) =>
      p == pool && OnPool(body.stmts, pool) && forall i | 0 <= i < |later| :: OnPool(later[i].stmts, pool)
    case _ => true
  }

  /** What running the statements once does: the result, the rows inserted, the time. */
  datatype Effect = Effect(r: Result, rows: seq<nat>, clock: nat)

  function Once(f: Faults, clock: nat, stmts: seq<Stmt>): Effect
    decreases stmts
  {
    if stmts == [] then Effect(Done, [], clock)
    else
      var e := OnceOne(f, clock, stmts[0]);
      if e.r.Done? || (e.r.Error? && stmts[0].Execute? && stmts[0].handled) then
        var rest := Once(f, e.clock, stmts[1..]);
        Effect(rest.r, e.rows + rest.rows, rest.clock)
      else e
  }

  function OnceOne(f: Faults, clock: nat, s: Stmt): Effect
    decreases s
  {
    match s
    case Insert(_, row) =>
      if f.inserts(clock).Some? then Effect(Error(f.inserts(clock).value), [], clock + 1)
      else Effect(Done, [row], clock + 1)
    case Fail(retryable) => Effect(Error(retryable), [], clock)
    case Panic => Effect(Panicked, [], clock)
    case Execute(_, _, body, _, _) => Once(f, clock, body.stmts)
  }

  /** The world with rows added to an open transaction. */
  function Added(w: World, t: Tx, rows: seq<nat>, clock: nat): World
    requires t in w.open
  {
    w.(open := w.open[t := Open(w.open[t].pool, w.open[t].rows + rows)], clock := clock)
  }

  lemma {:induction false} AddedTwice(w: World, t: Tx, a: seq<nat>, c: nat, b: seq<nat>, d: nat)
    requires t in w.open
    ensures Added(Added(w, t, a, c), t, b, d) == Added(w, t, a + b, d)
  {
    assert w.open[t].rows + a + b == w.open[t].rows + (a + b);
    var o := Open(w.open[t].pool, w.open[t].rows + a);
    assert w.open[t := o][t := Open(o.pool, o.rows + b)] == w.open[t := Open(o.pool, o.rows + b)];
  }

  lemma {:induction false} AddedNothing(w: World, t: Tx, clock: nat)
    requires t in w.open
    ensures Added(w, t, [], clock) == w.(clock := clock)
  {
    assert w.open[t].rows + [] == w.open[t].rows;
    assert w.open[t := w.open[t]] == w.open;
  }

  /** Inside a transaction, running is running once: nested calls join and never retry. */
  lemma {:induction false} InsideRunsOnce(f: Faults, w: World, ctx: Context, pool: Pool, t: Tx, stmts: seq<Stmt>)
    requires Distinct(ctx) && TxFor(ctx, pool) == Some(t) && t in w.open && OnPool(stmts, pool)
    ensures var e := Once(f, w.clock, stmts);
            RunAll(f, w, ctx, stmts) == (Added(w, t, e.rows, e.clock), e.r)
    decreases stmts
  {
    hide RunOne, OnceOne, OneOnPool, Added, Distinct, TxFor;
    if stmts == [] {
      AddedNothing(w, t, w.clock);
    } else {
      InsideRunsOneOnce(f, w, ctx, pool, t, stmts[0]);
      var e := OnceOne(f, w.clock, stmts[0]);
      var w1 := Added(w, t, e.rows, e.clock);
      AddedIsOpen(w, t, e.rows, e.clock);
      InsideRunsOnce(f, w1, ctx, pool, t, stmts[1..]);
      var rest := Once(f, e.clock, stmts[1..]);
      AddedTwice(w, t, e.rows, e.clock, rest.rows, rest.clock);
    }
  }

  lemma {:induction false} AddedIsOpen(w: World, t: Tx, rows: seq<nat>, clock: nat)
    requires t in w.open
    ensures t in Added(w, t, rows, clock).open && Added(w, t, rows, clock).clock == clock
  {
  }

  lemma {:induction false} InsideRunsOneOnce(f: Faults, w: World, ctx: Context, pool: Pool, t: Tx, s: Stmt)
    requires Distinct(ctx) && TxFor(ctx, pool) == Some(t) && t in w.open && OneOnPool(s, pool)
    ensures var e := OnceOne(f, w.clock, s);
            RunOne(f, w, ctx, s) == (Added(w, t, e.rows, e.clock), e.r)
    decreases s
  {
    hide Distinct, TxFor;
    AddedNothing(w, t, w.clock);
    AddedNothing(w, t, w.clock + 1);
    if s.Execute? {
      InsideRunsOnce(f, w, ctx, pool, t, s.body.stmts);
      JoinsOnce(f, w, ctx, s);
    }
  }

  lemma {:induction false} JoinsOnce(f: Faults, w: World, ctx: Context, s: Stmt)
    requires Distinct(ctx) && s.Execute? && TxFor(ctx, s.pool).Some?
    ensures RunOne(f, w, ctx, s) == RunAll(f, w, ctx, s.body.stmts)
  {
    hide RunAll, Distinct, JitterBound;
    assert BodyAt(s.body, s.later, 0) == s.body;
    var a := Attempt(f, w, ctx, s.pool, s.body);
    assert a == RunAll(f, w, ctx, s.body.stmts);
    assert Retry(f, w, ctx, s, 0) == (a.0, a.1, 1);
  }

  /** An attempt that begins a transaction runs its body once and keeps all of it or nothing. */
  lemma {:induction false} AttemptRunsOnce(f: Faults, w: World, ctx: Context, pool: Pool, body: Body)
    requires Distinct(ctx) && Agree(w, ctx) && TxFor(ctx, pool).None? && OnPool(body.stmts, pool)
    ensures var (w', r) := Attempt(f, w, ctx, pool, body);
            var e := Once(f, w.clock + 1, body.stmts);
            Rows(w', pool) == Rows(w, pool) + (if r.Done? then e.rows else []) && (r.Done? ==> e.r.Done?)
  {
    hide RunAll, Once, OnPool, Agree, Distinct, Added, Rows;
    var ctx', b := WithTx(ctx, pool, w.next), Begun(w, pool);
    BindingStaysDistinct(ctx, pool, w.next);
    InsideRunsOnce(f, b, ctx', pool, w.next, body.stmts);
    var e := Once(f, b.clock, body.stmts);
    EndsWithRows(f, w, pool, e.rows, e.clock, e.r);
    assert Rows(w, pool) + [] == Rows(w, pool);
    BeginFails(w, pool);
  }

  lemma {:induction false} BeginFails(w: World, pool: Pool)
    ensures Rows(w.(clock := w.clock + 1), pool) == Rows(w, pool)
  {
  }

  lemma {:induction false} EndsWithRows(f: Faults, w: World, pool: Pool, rows: seq<nat>, clock: nat, r: Result)
    ensures var w1 := Added(Begun(w, pool), w.next, rows, clock);
            && Rows(Commit(f, w1, w.next).0, pool)
                 == Rows(w, pool) + (if Commit(f, w1, w.next).1.Done? then rows else [])
            && Rows(Rollback(f, w1, w.next, r).0, pool) == Rows(w, pool)
            && Rollback(f, w1, w.next, r).1.Done? == r.Done?
  {
  }

  predicate ExecuteOnPool(s: Stmt) {
    s.Execute? && OneOnPool(s, s.pool)
  }

  lemma {:induction false} BodiesOnPool(s: Stmt, attempt: nat)
    requires ExecuteOnPool(s)
    ensures OnPool(BodyAt(s.body, s.later, attempt).stmts, s.pool)
  {
  }

  /** after is before and the rows of one successful run of the statements, begun at clock. */
  predicate OneRunAt(f: Faults, before: seq<nat>, after: seq<nat>, stmts: seq<Stmt>, clock: nat) {
    var e := Once(f, clock, stmts);
    e.r.Done? && after == before + e.rows
  }

  ghost predicate OneRun(f: Faults, before: seq<nat>, after: seq<nat>, stmts: seq<Stmt>) {
    exists clock: nat :: OneRunAt(f, before, after, stmts, clock)
  }

  /** On one pool, a nil result commits exactly one run of the function, the last one; an
      error or a panic commits none. */
  lemma {:induction false} CommitsOneRunOrNone(f: Faults, w: World, ctx: Context, s: Stmt, attempt: nat)
    requires Distinct(ctx) && Agree(w, ctx) && ExecuteOnPool(s) && TxFor(ctx, s.pool).None?
    ensures var (w', r, runs) := Retry(f, w, ctx, s, attempt);
            && runs > attempt
            && (!r.Done? ==> Rows(w', s.pool) == Rows(w, s.pool))
            && (r.Done? ==> OneRun(f, Rows(w, s.pool), Rows(w', s.pool), BodyAt(s.body, s.later, runs - 1).stmts))
    decreases if s.retries > attempt then s.retries - attempt else 0
  {
    hide Attempt, Agree, JitterBound, Distinct, Once, OneOnPool;
    var body := BodyAt(s.body, s.later, attempt);
    BodiesOnPool(s, attempt);
    AttemptRunsOnce(f, w, ctx, s.pool, body);
    AttemptKept(f, w, ctx, s.pool, body);
    var (w1, r) := Attempt(f, w, ctx, s.pool, body);
    AgreeKept(ctx, w, w1);
    if r.Done? {
      assert OneRunAt(f, Rows(w, s.pool), Rows(w1, s.pool), body.stmts, w.clock + 1);
    }
    if r.Error? && attempt < s.retries && r.retryable && JitterBound(attempt) > 0 && !f.cancelled(w1.clock) {
      var w2 := w1.(clock := w1.clock + 1);
      SameAgrees(ctx, w1, w2);
      CommitsOneRunOrNone(f, w2, ctx, s, attempt + 1);
    }
  }
}
