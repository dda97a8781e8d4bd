/**
  How long Execute waits between its attempts, and how many retries the 64-bit delay bears
  before the draw of the jitter panics.
 */
module TransactionBackoff {
  import opened Transactions

  // ----- the delay -----

  lemma {:induction false} Pow2Sum(a: nat, b: nat)
    ensures Pow2(a + b) == Pow2(a) * Pow2(b)
  {
    if a > 0 {
      Pow2Sum(a - 1, b);
      assert Pow2(a + b) == 2 * Pow2(a - 1 + b);
      assert 2 * (Pow2(a - 1) * Pow2(b)) == (2 * Pow2(a - 1)) * Pow2(b);
    } else {
      assert 1 * Pow2(b) == Pow2(b);
    }
  }

  lemma {:induction false} Pow2Grows(a: nat, b: nat)
    requires a <= b
    ensures Pow2(a) <= Pow2(b)
    decreases b - a
  {
    if a < b {
      Pow2Grows(a, b - 1);
    }
  }

  lemma {:induction false} Pow2Of39()
    ensures Pow2(38) == 0x40_0000_0000 && Pow2(39) == 0x80_0000_0000
  {
    assert Pow2(1) == 2 && Pow2(2) == 4 && Pow2(4) == 16;
    Pow2Sum(4, 4);
    Pow2Sum(8, 8);
    Pow2Sum(16, 16);
    Pow2Sum(32, 4);
    Pow2Sum(36, 2);
  }

  /** Up to attempt 38 the delay is the doubled base, capped. */
  lemma {:induction false} DelayAsIntended(attempt: nat)
    requires attempt <= 38
    ensures var d := 20_000_000 * Pow2(attempt);
            Delay(attempt) == (if d < 1_000_000_000 then d else 1_000_000_000)
    ensures JitterBound(attempt) > 0
  {
    Pow2Of39();
    Pow2Grows(attempt, 38);
    var d := BASE_DELAY * Pow2(attempt);
    assert 0 < d <= BASE_DELAY * 0x40_0000_0000;
  }

  /** At attempt 39 the shift overflows into the sign bit. */
  lemma {:induction false} DelayOverflows()
    ensures JitterBound(39) <= 0
  {
    Pow2Of39();
    assert BASE_DELAY * Pow2(39) == 10_995_116_277_760_000_000;
  }

  /** The draw never panics in so many retries exactly when they are at most 39. */
  lemma {:induction false} BackoffExactly(retries: int)
    ensures (forall a: nat | a < retries :: JitterBound(a) > 0) <==> retries <= 39
  {
    DelayOverflows();
    forall a: nat | a <= 38
      ensures JitterBound(a) > 0
    {
      DelayAsIntended(a);
    }
    if retries > 39 {
      assert JitterBound(39) <= 0;
    }
  }

  // ----- programs that do not panic themselves -----

  /** No Panic anywhere, and at most most retries everywhere. */
  predicate Calm(stmts: seq<Stmt>, most: int)
    decreases stmts
  {
    stmts == [] || (OneCalm(stmts[0], most) && Calm(stmts[1..], most))
  }

  predicate OneCalm(s: Stmt, most: int)
    decreases s
  {
    match s
    case Panic => false
    case Execute(_, retries, body, later, _) =>
      retries <= most && Calm(body.stmts, most) && forall i | 0 <= i < |later| :: Calm(later[i].stmts, most)
    case _ => true
  }

  lemma {:induction false} CalmAll(f: Faults, w: World, ctx: Context, stmts: seq<Stmt>, most: int)
    requires Distinct(ctx) && Calm(stmts, most) && most <= 39
    ensures !RunAll(f, w, ctx, stmts).1.Panicked?
    decreases stmts
  {
    hide RunOne, OneCalm, Distinct;
    if stmts != [] {
      CalmOne(f, w, ctx, stmts[0], most);
      CalmAll(f, RunOne(f, w, ctx, stmts[0]).0, ctx, stmts[1..], most);
    }
  }

  lemma {:induction false} CalmOne(f: Faults, w: World, ctx: Context, s: Stmt, most: int)
    requires Distinct(ctx) && OneCalm(s, most) && most <= 39
    ensures !RunOne(f, w, ctx, s).1.Panicked?
    decreases s, 1, 0
  {
    hide Retry, Distinct, Calm;
    if s.Execute? {
      CalmRetry(f, w, ctx, s, 0, most);
    }
  }

  lemma {:induction false} CalmAttempt(f: Faults, w: World, ctx: Context, pool: Pool, body: Body, most: int)
    requires Distinct(ctx) && Calm(body.stmts, most) && most <= 39
    ensures !Attempt(f, w, ctx, pool, body).1.Panicked?
    decreases body
  {
    hide RunAll, Distinct, Calm;
    if TxFor(ctx, pool).Some? {
      CalmAll(f, w, ctx, body.stmts, most);
    } else if f.begins(w.clock).None? {
      var t := w.next;
      var begun := w.(open := w.open[t := Open(pool, [])], next := t + 1, clock := w.clock + 1);
      BindingStaysDistinct(ctx, pool, t);
      CalmAll(f, begun, WithTx(ctx, pool, t), body.stmts, most);
    }
  }

  lemma {:induction false} CalmRetry(f: Faults, w: World, ctx: Context, s: Stmt, attempt: nat, most: int)
    requires Distinct(ctx) && s.Execute? && OneCalm(s, most) && most <= 39
    ensures !Retry(f, w, ctx, s, attempt).1.Panicked?
    decreases s, 0, if s.retries > attempt then s.retries - attempt else 0
  {
    hide Attempt, Distinct, JitterBound, Calm;
    var body := BodyAt(s.body, s.later, attempt);
    CalmAttempt(f, w, ctx, s.pool, body, most);
    BackoffExactly(39);
    var (w1, r) := Attempt(f, w, ctx, s.pool, body);
    if r.Error? && attempt < s.retries && r.retryable && TxFor(ctx, s.pool).None? && !f.cancelled(w1.clock) {
      CalmRetry(f, w1.(clock := w1.clock + 1), ctx, s, attempt + 1, most);
    }
  }

  // ----- forty retries -----

  const NO_FAULTS := Faults(t => None, t => None, t => None, t => None, t => false)

  const BARE := Context([], None)

  /** A function that fails with a retryable error each time. */
  const FORTY := Execute(0, 40, Body([Fail(true)]), [], false)

  lemma {:induction false} FailsAgain(w: World, attempt: nat)
    ensures Attempt(NO_FAULTS, w, BARE, 0, BodyAt(FORTY.body, FORTY.later, attempt)).1 == Error(true)
  {
    var t := w.next;
    var begun := w.(open := w.open[t := Open(0, [])], next := t + 1, clock := w.clock + 1);
    BindingStaysDistinct(BARE, 0, t);
    assert RunAll(NO_FAULTS, begun, WithTx(BARE, 0, t), [Fail(true)]) == (begun, Error(true));
  }

  lemma {:induction false} FortiethPanics(w: World, attempt: nat)
    requires attempt <= 39
    ensures Retry(NO_FAULTS, w, BARE, FORTY, attempt).1 == Panicked
    decreases 39 - attempt
  {
    hide Attempt, JitterBound, BodyAt;
    FailsAgain(w, attempt);
    DelayOverflows();
    if attempt < 39 {
      BackoffExactly(39);
      var w1 := Attempt(NO_FAULTS, w, BARE, 0, BodyAt(FORTY.body, FORTY.later, attempt)).0;
      FortiethPanics(w1.(clock := w1.clock + 1), attempt + 1);
    }
  }

  /** Whatever the databases do, a program that does not panic itself never panics. */
  ghost predicate NeverPanics(most: int) {
    forall f, w, ctx, stmts | Distinct(ctx) && Calm(stmts, most) :: !RunAll(f, w, ctx, stmts).1.Panicked?
  }

  /** Over all programs, worlds and faults: Execute adds no panic of its own exactly when no
      call allows more than 39 retries. */
  lemma {:induction false} PanicsExactly(most: int)
    ensures NeverPanics(most) <==> most <= 39
  {
    hide RunAll, Calm, Distinct;
    if most <= 39 {
      forall f, w, ctx, stmts | Distinct(ctx) && Calm(stmts, most)
        ensures !RunAll(f, w, ctx, stmts).1.Panicked?
      {
        CalmAll(f, w, ctx, stmts, most);
      }
    } else {
      FortyPanics(most);
    }
  }

  lemma {:induction false} FortyPanics(most: int)
    requires most >= 40
    ensures var w := World(map[], map[], 0, [], 0);
            Distinct(BARE) && Calm([FORTY], most) && RunAll(NO_FAULTS, w, BARE, [FORTY]).1 == Panicked
  {
    hide Retry;
    var w := World(map[], map[], 0, [], 0);
    assert [FORTY][1..] == [] && [Fail(true)][1..] == [];
    assert Calm([Fail(true)], most) && Calm([], most);
    assert OneCalm(FORTY, most);
    FortiethPanics(w, 0);
  }
}
