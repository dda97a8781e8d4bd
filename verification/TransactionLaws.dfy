/**
  What executing keeps, for every program, context and pattern of faults.
 */
module TransactionLaws {
  import opened Transactions

  // ----- the world and the context agree -----

  predicate Bound(ctx: Context, pool: Pool) {
    LastFor(ctx.bindings, pool).Some?
  }

  /** Transactions are numbered as they begin; a bound one is open, on its pool. */
  predicate Agree(w: World, ctx: Context) {
    && (forall t | t in w.open :: t < w.next)
    && (forall i | 0 <= i < |ctx.bindings| ::
          ctx.bindings[i].tx in w.open && w.open[ctx.bindings[i].tx].pool == ctx.bindings[i].pool)
  }

  lemma {:induction false} BoundIsBinding(bs: seq<Binding>, pool: Pool)
    requires LastFor(bs, pool).Some?
    ensures exists i | 0 <= i < |bs| :: bs[i] == Binding(pool, LastFor(bs, pool).value)
    decreases |bs|
  {
    var n := |bs| - 1;
    if bs[n].pool == pool {
      assert bs[n] == Binding(pool, LastFor(bs, pool).value);
    } else {
      BoundIsBinding(bs[..n], pool);
      var i :| 0 <= i < n && bs[..n][i] == Binding(pool, LastFor(bs, pool).value);
      assert bs[i] == Binding(pool, LastFor(bs, pool).value);
    }
  }

  // ----- what is kept -----

  /** Each transaction from lo to hi is ended by exactly one call, and no other is. */
  predicate EndOnce(ended: seq<Tx>, lo: Tx, hi: Tx) {
    && lo <= hi
    && (forall t | t in ended :: lo <= t < hi)
    && (forall t | lo <= t < hi :: multiset(ended)[t] == 1)
  }

  /** No transaction is left open or taken away, those begun have ended once, and pools
      with a transaction in the context keep their rows. */
  ghost predicate Kept(ctx: Context, w: World, w': World) {
    && w'.open.Keys == w.open.Keys
    && (forall t | t in w.open :: w'.open[t].pool == w.open[t].pool && w.open[t].rows <= w'.open[t].rows)
    && w.ended <= w'.ended && EndOnce(w'.ended[|w.ended|..], w.next, w'.next)
    && (forall p | Bound(ctx, p) :: Rows(w', p) == Rows(w, p))
  }

  lemma {:induction false} KeptSame(ctx: Context, w: World, w': World)
    requires w' == w.(clock := w'.clock)
    ensures Kept(ctx, w, w')
  {
  }

  lemma {:induction false} EndOnceThen(a: seq<Tx>, b: seq<Tx>, lo: Tx, mid: Tx, hi: Tx)
    requires EndOnce(a, lo, mid) && EndOnce(b, mid, hi)
    ensures EndOnce(a + b, lo, hi)
  {
    forall t | lo <= t < hi
      ensures multiset(a + b)[t] == 1
    {
      if t < mid {
        assert t !in b;
      } else {
        assert t !in a;
      }
      assert multiset(a + b) == multiset(a) + multiset(b);
      assert t !in b ==> t !in multiset(b);
      assert t !in a ==> t !in multiset(a);
    }
  }

  lemma {:induction false} KeptThen(ctx: Context, w: World, w1: World, w2: World)
    requires Kept(ctx, w, w1) && Kept(ctx, w1, w2)
    ensures Kept(ctx, w, w2)
  {
    hide EndOnce, Bound;
    var n, m := |w.ended|, |w1.ended|;
    EndOnceThen(w1.ended[n..], w2.ended[m..], w.next, w1.next, w2.next);
    assert w2.ended[..m] == w1.ended;
    assert w1.ended[n..] + w2.ended[m..] == w2.ended[n..];
  }

  lemma {:induction false} AgreeKept(ctx: Context, w: World, w': World)
    requires Agree(w, ctx) && Kept(ctx, w, w')
    ensures Agree(w', ctx)
  {
  }

  lemma {:induction false} InsertionKept(f: Faults, w: World, ctx: Context, pool: Pool, row: nat)
    requires Agree(w, ctx)
    ensures Kept(ctx, w, Insertion(f, w, ctx, pool, row).0)
  {
    var w' := Insertion(f, w, ctx, pool, row).0;
    assert w'.ended[|w.ended|..] == [];
    if TxFor(ctx, pool).None? {
      assert ctx.bindings != [] ==> !Bound(ctx, pool);
    }
  }

  // ----- for every program -----

  lemma {:induction false} RunAllKept(f: Faults, w: World, ctx: Context, stmts: seq<Stmt>)
    requires Distinct(ctx) && Agree(w, ctx)
    ensures Kept(ctx, w, RunAll(f, w, ctx, stmts).0)
    decreases stmts
  {
    hide Kept, Agree, RunOne;
    if stmts == [] {
      KeptSame(ctx, w, w);
    } else {
      RunOneKept(f, w, ctx, stmts[0]);
      var w1 := RunOne(f, w, ctx, stmts[0]).0;
      AgreeKept(ctx, w, w1);
      RunAllKept(f, w1, ctx, stmts[1..]);
      KeptThen(ctx, w, w1, RunAll(f, w1, ctx, stmts[1..]).0);
    }
  }

  lemma {:induction false} RunOneKept(f: Faults, w: World, ctx: Context, s: Stmt)
    requires Distinct(ctx) && Agree(w, ctx)
    ensures Kept(ctx, w, RunOne(f, w, ctx, s).0)
    decreases s, 1, 0
  {
    hide Kept, Agree, Retry, Insertion;
    match s
    case Insert(pool, row) => InsertionKept(f, w, ctx, pool, row);
    case Fail(_) => KeptSame(ctx, w, w);
    case Panic => KeptSame(ctx, w, w);
    case Execute(_, _, _, _, _) => RetryKept(f, w, ctx, s, 0);
  }

  lemma {:induction false} RetryKept(f: Faults, w: World, ctx: Context, s: Stmt, attempt: nat)
    requires Distinct(ctx) && Agree(w, ctx) && s.Execute?
    ensures Kept(ctx, w, Retry(f, w, ctx, s, attempt).0)
    decreases s, 0, if s.retries > attempt then s.retries - attempt else 0
  {
    hide Kept, Agree, Attempt, JitterBound;
    var body := BodyAt(s.body, s.later, attempt);
    AttemptKept(f, w, ctx, s.pool, body);
    var (w1, r) := Attempt(f, w, ctx, s.pool, body);
    var w2 := w1.(clock := w1.clock + 1);
    KeptSame(ctx, w1, w2);
    KeptThen(ctx, w, w1, w2);
    if r.Error? && attempt < s.retries && r.retryable && TxFor(ctx, s.pool).None? && JitterBound(attempt) > 0
       && !f.cancelled(w1.clock) {
      AgreeKept(ctx, w, w2);
      RetryKept(f, w2, ctx, s, attempt + 1);
      KeptThen(ctx, w, w2, Retry(f, w2, ctx, s, attempt + 1).0);
    }
  }

  /** The world after a transaction has begun. */
  function Begun(w: World, pool: Pool): World {
    w.(open := w.open[w.next := Open(pool, [])], next := w.next + 1, clock := w.clock + 1)
  }

  lemma {:induction false} BegunAgrees(w: World, ctx: Context, pool: Pool)
    requires Agree(w, ctx)
    ensures Agree(Begun(w, pool), WithTx(ctx, pool, w.next))
  {
  }

  lemma {:induction false} AttemptKept(f: Faults, w: World, ctx: Context, pool: Pool, body: Body)
    requires Distinct(ctx) && Agree(w, ctx)
    ensures Kept(ctx, w, Attempt(f, w, ctx, pool, body).0)
    decreases body
  {
    hide Kept, Agree, RunAll, Commit, Rollback, Distinct;
    if TxFor(ctx, pool).Some? {
      RunAllKept(f, w, ctx, body.stmts);
    } else if f.begins(w.clock).Some? {
      KeptSame(ctx, w, w.(clock := w.clock + 1));
    } else {
      var ctx' := WithTx(ctx, pool, w.next);
      BindingStaysDistinct(ctx, pool, w.next);
      BegunAgrees(w, ctx, pool);
      RunAllKept(f, Begun(w, pool), ctx', body.stmts);
      var (w1, r) := RunAll(f, Begun(w, pool), ctx', body.stmts);
      EndedKept(f, w, ctx, pool, w1, r);
    }
  }

  /** Ending the transaction gives back the open transactions there were. */
  lemma {:induction false} EndedKept(f: Faults, w: World, ctx: Context, pool: Pool, w1: World, r: Result)
    requires Agree(w, ctx) && TxFor(ctx, pool).None?
    requires Kept(WithTx(ctx, pool, w.next), Begun(w, pool), w1)
    ensures Kept(ctx, w, Commit(f, w1, w.next).0) && Kept(ctx, w, Rollback(f, w1, w.next, r).0)
  {
    hide EndOnce, Bound, Rows, TxFor;
    var t, n := w.next, |w.ended|;
    var inner := w1.ended[n..];
    EndsWithIt(inner, t, w1.next);
    assert (w1.ended + [t])[n..] == inner + [t];
    assert t in w1.open && w1.open[t].pool == pool;
    EndedRows(f, w, ctx, pool, w1, r);
  }

  lemma {:induction false} EndedRows(f: Faults, w: World, ctx: Context, pool: Pool, w1: World, r: Result)
    requires TxFor(ctx, pool).None? && Kept(WithTx(ctx, pool, w.next), Begun(w, pool), w1)
    ensures forall p | Bound(ctx, p) ::
              Rows(Commit(f, w1, w.next).0, p) == Rows(w, p) && Rows(Rollback(f, w1, w.next, r).0, p) == Rows(w, p)
  {
    hide EndOnce, Bound, WithTx;
    assert w1.open[w.next].pool == pool;
    forall p | Bound(ctx, p)
      ensures Rows(Commit(f, w1, w.next).0, p) == Rows(w, p) && Rows(Rollback(f, w1, w.next, r).0, p) == Rows(w, p)
    {
      BoundStays(ctx, pool, w.next, p);
      assert Rows(w1, p) == Rows(Begun(w, pool), p);
    }
  }

  lemma {:induction false} BoundStays(ctx: Context, pool: Pool, t: Tx, p: Pool)
    requires TxFor(ctx, pool).None? && Bound(ctx, p)
    ensures p != pool && Bound(WithTx(ctx, pool, t), p)
  {
    assert (ctx.bindings + [Binding(pool, t)])[..|ctx.bindings|] == ctx.bindings;
  }

  lemma {:induction false} EndsWithIt(inner: seq<Tx>, t: Tx, hi: Tx)
    requires EndOnce(inner, t + 1, hi)
    ensures EndOnce(inner + [t], t, hi)
  {
    assert multiset(inner + [t]) == multiset(inner) + multiset{t};
    assert t !in inner;
    assert t !in multiset(inner);
  }
}
