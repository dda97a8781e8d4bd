/**
  Transactions of several databases: a program touches only the pools it names.
 */
module TransactionPools {
  import opened Transactions
  import opened TransactionLaws
  import opened TransactionAtomicity

  /** The statements, nested ones too, name only these pools. */
  predicate Names(stmts: seq<Stmt>, pools: set<Pool>)
    decreases stmts
  {
    stmts == [] || (OneNames(stmts[0], pools) && Names(stmts[1..], pools))
  }

  predicate OneNames(s: Stmt, pools: set<Pool>)
    decreases s
  {
    match s
    case Insert(p, _) => p in pools
    case Execute(p, _, body, later, _) =>
      p in pools && Names(body.stmts, pools) && forall i | 0 <= i < |later| :: Names(later[i].stmts, pools)
    case _ => true
  }

  /** The rows and the open transactions of all other pools are as they were. */
  ghost predicate Untouched(pools: set<Pool>, w: World, w': World) {
    && (forall p | p !in pools :: Rows(w', p) == Rows(w, p))
    && (forall t | t in w.open && w.open[t].pool !in pools :: t in w'.open && w'.open[t] == w.open[t])
  }

  /** A transaction stored without its pool is taken to be that of the caller's pool, so it
      has to be on one of these. */
  predicate RawOk(w: World, ctx: Context, pools: set<Pool>) {
    ctx.bindings == [] && ctx.raw.Some? && ctx.raw.value in w.open ==> w.open[ctx.raw.value].pool in pools
  }

  lemma {:induction false} RawKept(ctx: Context, w: World, w': World, pools: set<Pool>)
    requires RawOk(w, ctx, pools) && Kept(ctx, w, w')
    ensures RawOk(w', ctx, pools)
  {
    assert w'.open.Keys == w.open.Keys;
  }

  lemma {:induction false} UntouchedThen(pools: set<Pool>, w: World, w1: World, w2: World)
    requires Untouched(pools, w, w1) && Untouched(pools, w1, w2)
    ensures Untouched(pools, w, w2)
  {
  }

  lemma {:induction false} InsertionStays(f: Faults, w: World, ctx: Context, pool: Pool, row: nat, pools: set<Pool>)
    requires Agree(w, ctx) && RawOk(w, ctx, pools) && pool in pools
    ensures Untouched(pools, w, Insertion(f, w, ctx, pool, row).0)
  {
    if Bound(ctx, pool) {
      BoundIsBinding(ctx.bindings, pool);
    }
  }

  /** For every program: a pool it does not name keeps its rows and its open transactions,
      whatever the contexts bind and the databases do. */
  lemma {:induction false} StaysOnItsPools(f: Faults, w: World, ctx: Context, stmts: seq<Stmt>, pools: set<Pool>)
    requires Distinct(ctx) && Agree(w, ctx) && RawOk(w, ctx, pools) && Names(stmts, pools)
    ensures Untouched(pools, w, RunAll(f, w, ctx, stmts).0)
    decreases stmts
  {
    hide Agree, RunOne, OneNames, Distinct, Untouched, Kept;
    if stmts == [] {
      UntouchedSame(pools, w, w);
    } else {
      OneStays(f, w, ctx, stmts[0], pools);
      RunOneKept(f, w, ctx, stmts[0]);
      var w1 := RunOne(f, w, ctx, stmts[0]).0;
      AgreeKept(ctx, w, w1);
      RawKept(ctx, w, w1, pools);
      StaysOnItsPools(f, w1, ctx, stmts[1..], pools);
      UntouchedThen(pools, w, w1, RunAll(f, w1, ctx, stmts[1..]).0);
    }
  }

  lemma {:induction false} UntouchedSame(pools: set<Pool>, w: World, w': World)
    requires w' == w.(clock := w'.clock)
    ensures Untouched(pools, w, w')
  {
  }

  lemma {:induction false} OneStays(f: Faults, w: World, ctx: Context, s: Stmt, pools: set<Pool>)
    requires Distinct(ctx) && Agree(w, ctx) && RawOk(w, ctx, pools) && OneNames(s, pools)
    ensures Untouched(pools, w, RunOne(f, w, ctx, s).0)
    decreases s, 1, 0
  {
    hide Agree, Retry, Insertion, Distinct, Untouched, Names;
    match s
    case Insert(pool, row) => InsertionStays(f, w, ctx, pool, row, pools);
    case Fail(_) => UntouchedSame(pools, w, w);
    case Panic => UntouchedSame(pools, w, w);
    case Execute(_, _, _, _, _) => RetryStays(f, w, ctx, s, 0, pools);
  }

  lemma {:induction false} RetryStays(f: Faults, w: World, ctx: Context, s: Stmt, attempt: nat, pools: set<Pool>)
    requires Distinct(ctx) && Agree(w, ctx) && RawOk(w, ctx, pools) && s.Execute? && OneNames(s, pools)
    ensures Untouched(pools, w, Retry(f, w, ctx, s, attempt).0)
    decreases s, 0, if s.retries > attempt then s.retries - attempt else 0
  {
    hide Agree, Attempt, JitterBound, Distinct, Untouched, Names, Kept;
    var body := BodyAt(s.body, s.later, attempt);
    AttemptStays(f, w, ctx, s.pool, body, pools);
    AttemptKept(f, w, ctx, s.pool, body);
    var (w1, r) := Attempt(f, w, ctx, s.pool, body);
    var w2 := w1.(clock := w1.clock + 1);
    AgreeKept(ctx, w, w1);
    RawKept(ctx, w, w1, pools);
    SameAgrees(ctx, w1, w2);
    UntouchedSame(pools, w1, w2);
    UntouchedThen(pools, w, w1, w2);
    if r.Error? && attempt < s.retries && r.retryable && TxFor(ctx, s.pool).None? && JitterBound(attempt) > 0
       && !f.cancelled(w1.clock) {
      RetryStays(f, w2, ctx, s, attempt + 1, pools);
      UntouchedThen(pools, w, w2, Retry(f, w2, ctx, s, attempt + 1).0);
    }
  }

  lemma {:induction false} AttemptStays(f: Faults, w: World, ctx: Context, pool: Pool, body: Body, pools: set<Pool>)
    requires Distinct(ctx) && Agree(w, ctx) && RawOk(w, ctx, pools) && pool in pools && Names(body.stmts, pools)
    ensures Untouched(pools, w, Attempt(f, w, ctx, pool, body).0)
    decreases body
  {
    hide Agree, RunAll, Commit, Rollback, Distinct, Untouched, Names;
    if TxFor(ctx, pool).Some? {
      StaysOnItsPools(f, w, ctx, body.stmts, pools);
    } else if f.begins(w.clock).Some? {
      UntouchedSame(pools, w, w.(clock := w.clock + 1));
    } else {
      var ctx' := WithTx(ctx, pool, w.next);
      BindingStaysDistinct(ctx, pool, w.next);
      BegunAgrees(w, ctx, pool);
      StaysOnItsPools(f, Begun(w, pool), ctx', body.stmts, pools);
      RunLeavesPool(f, w, ctx, pool, body.stmts);
      var (w1, r) := RunAll(f, Begun(w, pool), ctx', body.stmts);
      BeginStays(w, ctx, pool, pools);
      UntouchedThen(pools, w, Begun(w, pool), w1);
      EndStays(f, w, ctx, pool, w1, r, pools);
    }
  }

  lemma {:induction false} BeginStays(w: World, ctx: Context, pool: Pool, pools: set<Pool>)
    requires Agree(w, ctx) && pool in pools
    ensures Untouched(pools, w, Begun(w, pool))
  {
  }

  lemma {:induction false} EndStays(f: Faults, w: World, ctx: Context, pool: Pool, w1: World, r: Result,
                                    pools: set<Pool>)
    requires Agree(w, ctx) && pool in pools && Untouched(pools, w, w1) && w.next in w1.open
    requires w1.open[w.next].pool == pool
    ensures Untouched(pools, w, Commit(f, w1, w.next).0) && Untouched(pools, w, Rollback(f, w1, w.next, r).0)
  {
  }
}
