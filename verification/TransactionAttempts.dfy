/**
  Which attempts Execute makes: they are described one after the other, apart from the loop
  that makes them, and the loop stops at the first that is the last one.
 */
module TransactionAttempts {
  import opened Transactions
  import opened TransactionLaws
  import opened TransactionAtomicity
  import opened TransactionBackoff

  // ----- any program, any number of pools -----

  /** The n-th attempt, each begun where the one before ended, a moment later. */
  function Tried(f: Faults, w: World, ctx: Context, s: Stmt, n: nat): (World, Result)
    requires Distinct(ctx) && s.Execute?
  {
    if n == 0 then Attempt(f, w, ctx, s.pool, s.body)
    else
      var w1 := Tried(f, w, ctx, s, n - 1).0;
      Attempt(f, w1.(clock := w1.clock + 1), ctx, s.pool, if n <= |s.later| then s.later[n - 1] else s.body)
  }

  /** Only a conflict is tried again, and only so often; not by a call that joined a
      transaction, and not once the context is cancelled. With 39 attempts made the delay
      overflows. */
  predicate TriesAgain(f: Faults, ctx: Context, s: Stmt, n: nat, r: Result, clock: nat)
    requires s.Execute?
  {
    && r == Error(true) && n < s.retries && TxFor(ctx, s.pool).None? && n < 39 && !f.cancelled(clock)
  }

  /** The delay overflows when another attempt is due. */
  predicate Overflows(ctx: Context, s: Stmt, n: nat, r: Result)
    requires s.Execute?
  {
    r == Error(true) && n < s.retries && TxFor(ctx, s.pool).None? && n >= 39
  }

  lemma {:induction false} TriedNext(f: Faults, w: World, ctx: Context, s: Stmt, n: nat)
    requires Distinct(ctx) && s.Execute?
    ensures var w1 := Tried(f, w, ctx, s, n).0;
            Tried(f, w, ctx, s, n + 1)
            == Attempt(f, w1.(clock := w1.clock + 1), ctx, s.pool, BodyAt(s.body, s.later, n + 1))
    ensures Tried(f, w, ctx, s, 0) == Attempt(f, w, ctx, s.pool, BodyAt(s.body, s.later, 0))
  {
    hide Attempt, Distinct;
  }

  /** The loop from the n-th attempt on. */
  lemma {:induction false} RetryFrom(f: Faults, w: World, ctx: Context, s: Stmt, w1: World, n: nat)
    requires Distinct(ctx) && s.Execute? && n <= 39
    requires Attempt(f, w1, ctx, s.pool, BodyAt(s.body, s.later, n)) == Tried(f, w, ctx, s, n)
    ensures var (w', r, runs) := Retry(f, w1, ctx, s, n);
            && runs > n
            && (forall k | n <= k < runs - 1 ::
                  var (wk, rk) := Tried(f, w, ctx, s, k); TriesAgain(f, ctx, s, k, rk, wk.clock))
            && var (wk, rk) := Tried(f, w, ctx, s, runs - 1);
               && !TriesAgain(f, ctx, s, runs - 1, rk, wk.clock)
               && r == (if Overflows(ctx, s, runs - 1, rk) then Panicked else rk)
               && w' == wk.(clock := w'.clock)
    decreases if s.retries > n then s.retries - n else 0
  {
    hide Attempt, Distinct, JitterBound, Tried;
    var (wn, rn) := Tried(f, w, ctx, s, n);
    BackoffExactly(39);
    DelayOverflows();
    if TriesAgain(f, ctx, s, n, rn, wn.clock) {
      TriedNext(f, w, ctx, s, n);
      var next := wn.(clock := wn.clock + 1);
      assert JitterBound(n) > 0;
      assert Retry(f, w1, ctx, s, n) == Retry(f, next, ctx, s, n + 1);
      RetryFrom(f, w, ctx, s, next, n + 1);
      forall k | n <= k < Retry(f, w1, ctx, s, n).2 - 1
        ensures var (wk, rk) := Tried(f, w, ctx, s, k); TriesAgain(f, ctx, s, k, rk, wk.clock)
      {
      }
    }
  }

  /** Execute makes attempts up to the first that is not tried again, and returns what that
      one returned, or panics where the delay overflows. */
  lemma {:induction false} AttemptsExactly(f: Faults, w: World, ctx: Context, s: Stmt)
    requires Distinct(ctx) && s.Execute?
    ensures var (w', r, runs) := Retry(f, w, ctx, s, 0);
            && runs > 0
            && (forall k | 0 <= k < runs - 1 ::
                  var (wk, rk) := Tried(f, w, ctx, s, k); TriesAgain(f, ctx, s, k, rk, wk.clock))
            && var (wk, rk) := Tried(f, w, ctx, s, runs - 1);
               && !TriesAgain(f, ctx, s, runs - 1, rk, wk.clock)
               && r == (if Overflows(ctx, s, runs - 1, rk) then Panicked else rk)
               && w' == wk.(clock := w'.clock)
  {
    hide Attempt, Distinct, Retry, Tried;
    TriedNext(f, w, ctx, s, 0);
    RetryFrom(f, w, ctx, s, w, 0);
  }

  // ----- one pool: a reference without transactions -----

  /** One attempt begun at clock: its result, its rows if it committed, and when it ended. */
  function Outcome(f: Faults, clock: nat, stmts: seq<Stmt>): Effect {
    if f.begins(clock).Some? then Effect(Error(f.begins(clock).value), [], clock + 1)
    else
      var e := Once(f, clock + 1, stmts);
      match e.r
      case Panicked => Effect(Panicked, [], e.clock + 1)
      case Done =>
        if f.commits(e.clock).Some? then Effect(Error(f.commits(e.clock).value), [], e.clock + 1)
        else Effect(Done, e.rows, e.clock + 1)
      case Error(retryable) =>
        var own := f.rollbacks(e.clock);
        Effect(Error(if own.Some? && own.value.State? then own.value.retryable else retryable), [], e.clock + 1)
  }

  function OutcomeAt(f: Faults, clock: nat, s: Stmt, n: nat): Effect
    requires s.Execute?
  {
    if n == 0 then Outcome(f, clock, s.body.stmts)
    else
      var start := OutcomeAt(f, clock, s, n - 1).clock + 1;
      Outcome(f, start, if n <= |s.later| then s.later[n - 1].stmts else s.body.stmts)
  }

  lemma {:induction false} AttemptIs(f: Faults, w: World, ctx: Context, pool: Pool, body: Body)
    requires Distinct(ctx) && Agree(w, ctx) && TxFor(ctx, pool).None? && OnPool(body.stmts, pool)
    ensures var (w', r) := Attempt(f, w, ctx, pool, body);
            var e := Outcome(f, w.clock, body.stmts);
            r == e.r && w'.clock == e.clock && Rows(w', pool) == Rows(w, pool) + e.rows
  {
    hide RunAll, Once, OnPool, Agree, Distinct, Added, Rows;
    var ctx', b := WithTx(ctx, pool, w.next), Begun(w, pool);
    BindingStaysDistinct(ctx, pool, w.next);
    InsideRunsOnce(f, b, ctx', pool, w.next, body.stmts);
    var e := Once(f, b.clock, body.stmts);
    EndsWithRows(f, w, pool, e.rows, e.clock, e.r);
    AddedIsOpen(b, w.next, e.rows, e.clock);
    assert Rows(w, pool) + [] == Rows(w, pool);
    BeginFails(w, pool);
  }

  lemma {:induction false} TriedIs(f: Faults, w: World, ctx: Context, s: Stmt, n: nat)
    requires Distinct(ctx) && Agree(w, ctx) && ExecuteOnPool(s) && TxFor(ctx, s.pool).None?
    requires forall k | 0 <= k < n :: !OutcomeAt(f, w.clock, s, k).r.Done?
    ensures var (wn, rn) := Tried(f, w, ctx, s, n);
            var e := OutcomeAt(f, w.clock, s, n);
            && Agree(wn, ctx) && rn == e.r && wn.clock == e.clock
            && Rows(wn, s.pool) == Rows(w, s.pool) + e.rows
  {
    hide Attempt, Agree, Distinct, Outcome, OneOnPool, OnPool, Rows, Kept;
    BodiesOnPool(s, n);
    var body := BodyAt(s.body, s.later, n);
    if n == 0 {
      AttemptIs(f, w, ctx, s.pool, body);
      AttemptKept(f, w, ctx, s.pool, body);
      AgreeKept(ctx, w, Attempt(f, w, ctx, s.pool, body).0);
    } else {
      TriedIs(f, w, ctx, s, n - 1);
      var w1 := Tried(f, w, ctx, s, n - 1).0;
      var w2 := w1.(clock := w1.clock + 1);
      SameAgrees(ctx, w1, w2);
      BeginFails(w1, s.pool);
      FailureHasNoRows(f, w.clock, s, n - 1);
      assert Rows(w, s.pool) + [] == Rows(w, s.pool);
      AttemptIs(f, w2, ctx, s.pool, body);
      AttemptKept(f, w2, ctx, s.pool, body);
      AgreeKept(ctx, w2, Attempt(f, w2, ctx, s.pool, body).0);
    }
  }

  lemma {:induction false} FailureHasNoRows(f: Faults, clock: nat, s: Stmt, n: nat)
    requires s.Execute? && !OutcomeAt(f, clock, s, n).r.Done?
    ensures OutcomeAt(f, clock, s, n).rows == []
  {
    hide Once;
  }

  /** On one pool, outside a transaction: runs is the number of the first attempt that ends
      otherwise than in a conflict, or at which the retries, the delay or the context end the
      loop; the result is that of this attempt, and its rows are what the pool gains. */
  lemma {:induction false} RunsExactly(f: Faults, w: World, ctx: Context, s: Stmt)
    requires Distinct(ctx) && Agree(w, ctx) && ExecuteOnPool(s) && TxFor(ctx, s.pool).None?
    ensures var (w', r, runs) := Retry(f, w, ctx, s, 0);
            && runs > 0
            && (forall k | 0 <= k < runs - 1 ::
                  var e := OutcomeAt(f, w.clock, s, k); TriesAgain(f, ctx, s, k, e.r, e.clock))
            && var e := OutcomeAt(f, w.clock, s, runs - 1);
               && !TriesAgain(f, ctx, s, runs - 1, e.r, e.clock)
               && r == (if Overflows(ctx, s, runs - 1, e.r) then Panicked else e.r)
               && Rows(w', s.pool) == Rows(w, s.pool) + e.rows
  {
    hide Retry, Tried, Agree, Distinct, OutcomeAt, OneOnPool, Rows;
    AttemptsExactly(f, w, ctx, s);
    var (w', r, runs) := Retry(f, w, ctx, s, 0);
    AllTriedAre(f, w, ctx, s, runs);
    RowsOnly(Tried(f, w, ctx, s, runs - 1).0, w', s.pool);
  }

  lemma {:induction false} RowsOnly(w: World, w': World, pool: Pool)
    requires w' == w.(clock := w'.clock)
    ensures Rows(w', pool) == Rows(w, pool)
  {
  }

  lemma {:induction false} AllTriedAre(f: Faults, w: World, ctx: Context, s: Stmt, n: nat)
    requires Distinct(ctx) && Agree(w, ctx) && ExecuteOnPool(s) && TxFor(ctx, s.pool).None?
    requires forall k | 0 <= k < n - 1 ::
               var (wk, rk) := Tried(f, w, ctx, s, k); TriesAgain(f, ctx, s, k, rk, wk.clock)
    ensures forall k | 0 <= k < n ::
              var (wk, rk) := Tried(f, w, ctx, s, k);
              var e := OutcomeAt(f, w.clock, s, k);
              rk == e.r && wk.clock == e.clock && Rows(wk, s.pool) == Rows(w, s.pool) + e.rows
    decreases n
  {
    hide Tried, Agree, Distinct, OutcomeAt, OneOnPool, Rows;
    if n > 0 {
      AllTriedAre(f, w, ctx, s, n - 1);
      forall k | 0 <= k < n - 1
        ensures !OutcomeAt(f, w.clock, s, k).r.Done?
      {
        assert Tried(f, w, ctx, s, k).1 == OutcomeAt(f, w.clock, s, k).r;
      }
      TriedIs(f, w, ctx, s, n - 1);
    }
  }

  /** An error that is no conflict is returned after one run, and nothing is committed. */
  lemma {:induction false} OtherErrorsReturn(f: Faults, w: World, ctx: Context, s: Stmt)
    requires Distinct(ctx) && Agree(w, ctx) && ExecuteOnPool(s) && TxFor(ctx, s.pool).None?
    requires f.begins(w.clock).None? && Once(f, w.clock + 1, s.body.stmts).r == Error(false)
    requires f.rollbacks(Once(f, w.clock + 1, s.body.stmts).clock) in {None, Some(Stateless)}
    ensures var (w', r, runs) := Retry(f, w, ctx, s, 0);
            runs == 1 && r == Error(false) && Rows(w', s.pool) == Rows(w, s.pool)
  {
    hide Retry, Agree, Distinct, OneOnPool, Rows, Once;
    RunsExactly(f, w, ctx, s);
    assert OutcomeAt(f, w.clock, s, 0).r == Error(false);
    assert Rows(w, s.pool) + [] == Rows(w, s.pool);
  }
}
