/**
  The loop that renews a lease while its job runs, and cancels the job in time.
  Durations are in the clock's unit; a renewal takes no time.
 */
module KeepAlive {

  /** What a tick's renewal brought: the lease was extended, it belongs to someone else,
      or the store could not be asked. */
  datatype Renewal = Extended | Lost | Failed

  /** How many failures in a row end the run. */
  function Patience(ttl: int): nat {
    if ttl % 3 == 2 then 3 else 2
  }

  /** The longest time without a renewal. */
  function Bound(ttl: int): int {
    Patience(ttl) * (ttl / 3)
  }

  /** The tick that cancels the run after `failures` failures in a row: the first one that
      finds the lease lost, or that exhausts the patience. */
  function StopsAt(patience: nat, failures: nat, ticks: seq<Renewal>): (n: nat)
    ensures n <= |ticks|
    decreases |ticks|
  {
    if ticks == [] then 0
    else match ticks[0]
      case Extended => 1 + StopsAt(patience, 0, ticks[1..])
      case Lost => 0
      case Failed => if failures + 1 >= patience then 0 else 1 + StopsAt(patience, failures + 1, ticks[1..])
  }

  /** The failures in a row at the end. */
  function Failures(failures: nat, ticks: seq<Renewal>): nat
    decreases |ticks|
  {
    if ticks == [] then failures
    else Failures(if ticks[0].Extended? then 0 else failures + 1, ticks[1..])
  }

  /** When tick i fires. */
  function TickTime(ttl: int, start: int, i: int): int {
    start + (i + 1) * (ttl / 3)
  }

  /** When the lease was last extended, after these ticks. */
  function RenewedAt(ttl: int, start: int, ticks: seq<Renewal>): int {
    if ticks == [] then start
    else if ticks[|ticks| - 1].Extended? then TickTime(ttl, start, |ticks| - 1)
    else RenewedAt(ttl, start, ticks[..|ticks| - 1])
  }

  /** The test on the time since the last renewal counts failures. */
  lemma {:induction false} PatienceIsTime(ttl: int, failures: nat)
    requires ttl >= 3 && failures < Patience(ttl)
    ensures (failures + 1) * (ttl / 3) < ttl * 2 / 3 <==> failures + 1 < Patience(ttl)
  {
    var p := ttl / 3;
    assert 1 * p == p && 2 * p == p + p && 3 * p == p + p + p;
  }

  lemma {:induction false} BoundInsideLease(ttl: int)
    requires ttl >= 3
    ensures 0 < Bound(ttl) < ttl
    ensures ttl % 3 != 2 ==> Bound(ttl) == 2 * (ttl / 3)
    ensures ttl % 3 == 2 ==> Bound(ttl) == 3 * (ttl / 3)
  {
    var p := ttl / 3;
    assert 2 * p == p + p && 3 * p == p + p + p;
  }

  lemma {:induction false} FailuresSnoc(failures: nat, ticks: seq<Renewal>, r: Renewal)
    ensures Failures(failures, ticks + [r]) == if r.Extended? then 0 else Failures(failures, ticks) + 1
    decreases |ticks|
  {
    if ticks == [] {
      assert (ticks + [r])[1..] == [];
    } else {
      assert (ticks + [r])[1..] == ticks[1..] + [r];
      FailuresSnoc(if ticks[0].Extended? then 0 else failures + 1, ticks[1..], r);
    }
  }

  /** A run that is still going has not exhausted its patience. */
  lemma {:induction false} StillPatient(patience: nat, failures: nat, ticks: seq<Renewal>, i: nat)
    requires failures < patience && i <= StopsAt(patience, failures, ticks)
    ensures Failures(failures, ticks[..i]) < patience
    decreases |ticks|
  {
    if i > 0 {
      assert ticks != [] && ticks[..i][1..] == ticks[1..][..i - 1];
      StillPatient(patience, if ticks[0].Extended? then 0 else failures + 1, ticks[1..], i - 1);
    }
  }

  /** The time since the last renewal is one period per failure, and one for this tick. */
  lemma {:induction false} SinceRenewal(ttl: int, start: int, ticks: seq<Renewal>)
    ensures TickTime(ttl, start, |ticks|) - RenewedAt(ttl, start, ticks) == (Failures(0, ticks) + 1) * (ttl / 3)
    decreases |ticks|
  {
    var p := ttl / 3;
    if ticks != [] {
      var n := |ticks| - 1;
      var before := ticks[..n];
      assert ticks == before + [ticks[n]];
      FailuresSnoc(0, before, ticks[n]);
      SinceRenewal(ttl, start, before);
      assert TickTime(ttl, start, n + 1) == TickTime(ttl, start, n) + p by {
        assert (n + 2) * p == (n + 1) * p + p;
      }
      var f := Failures(0, before);
      assert (f + 2) * p == (f + 1) * p + p;
    }
  }

  /** The loop: cancelled says whether the run was cancelled, at which tick, and when the
      lease had last been extended. When the ticks run out the job has ended by itself. */
  method Renewing(ttl: int, start: int, ticks: seq<Renewal>) returns (cancelled: bool, tick: nat, renewed: int)
    requires ttl >= 3
    ensures tick == StopsAt(Patience(ttl), 0, ticks)
    ensures cancelled <==> tick < |ticks|
    ensures renewed == RenewedAt(ttl, start, ticks[..tick])
    ensures cancelled ==> TickTime(ttl, start, tick) - renewed <= Bound(ttl) < ttl
  {
    renewed := start;
    tick := 0;
    while tick < |ticks|
      invariant tick <= |ticks|
      invariant renewed == RenewedAt(ttl, start, ticks[..tick])
      invariant Failures(0, ticks[..tick]) < Patience(ttl)
      invariant tick + StopsAt(Patience(ttl), Failures(0, ticks[..tick]), ticks[tick..])
                == StopsAt(Patience(ttl), 0, ticks)
    {
      ghost var f := Failures(0, ticks[..tick]);
      var now := start + (tick + 1) * (ttl / 3);
      SinceRenewal(ttl, start, ticks[..tick]);
      PatienceIsTime(ttl, f);
      assert ticks[..tick + 1] == ticks[..tick] + [ticks[tick]];
      FailuresSnoc(0, ticks[..tick], ticks[tick]);
      assert ticks[tick..][1..] == ticks[tick + 1..];
      if ticks[tick].Extended? {
        renewed := now;
      } else if !(ticks[tick].Failed? && now - renewed < ttl * 2 / 3) {
        BoundReached(ttl, f);
        return true, tick, renewed;
      }
      tick := tick + 1;
    }
    return false, tick, renewed;
  }

  lemma {:induction false} BoundReached(ttl: int, failures: nat)
    requires ttl >= 3 && failures < Patience(ttl)
    ensures (failures + 1) * (ttl / 3) <= Bound(ttl) < ttl
  {
    BoundInsideLease(ttl);
    var p := ttl / 3;
    assert 1 * p == p && 2 * p == p + p && 3 * p == p + p + p;
  }

  /** At every tick the run reaches, it has gone without a renewal for at most Bound, so it
      stops before a lease renewed when the store said so can expire. */
  lemma {:induction false} StopsBeforeExpiry(ttl: int, start: int, ticks: seq<Renewal>, i: nat)
    requires ttl >= 3 && i <= StopsAt(Patience(ttl), 0, ticks)
    ensures TickTime(ttl, start, i) <= RenewedAt(ttl, start, ticks[..i]) + Bound(ttl)
    ensures Bound(ttl) < ttl
  {
    StillPatient(Patience(ttl), 0, ticks, i);
    SinceRenewal(ttl, start, ticks[..i]);
    BoundReached(ttl, Failures(0, ticks[..i]));
  }

  // ----- the loop starts some time after the lease was acquired -----

  /** When the lease ends in the store: acquired delay before the loop started, extended
      since or not. */
  function LeaseEnd(ttl: int, start: int, delay: int, ticks: seq<Renewal>): int {
    if Extended in ticks then RenewedAt(ttl, start, ticks) + ttl else start - delay + ttl
  }

  /** The run is over before the lease ends, at every tick it reaches. */
  ghost predicate Safe(ttl: int, start: int, delay: int, ticks: seq<Renewal>) {
    forall i | 0 <= i <= StopsAt(Patience(ttl), 0, ticks) ::
      TickTime(ttl, start, i) < LeaseEnd(ttl, start, delay, ticks[..i])
  }

  lemma {:induction false} NeverExtended(ttl: int, start: int, ticks: seq<Renewal>)
    requires Extended !in ticks
    ensures RenewedAt(ttl, start, ticks) == start
    decreases |ticks|
  {
    if ticks != [] {
      NeverExtended(ttl, start, ticks[..|ticks| - 1]);
    }
  }

  lemma {:induction false} StopsAfter(patience: nat, failures: nat, ticks: seq<Renewal>)
    requires failures < patience && |ticks| >= patience - failures && forall i | 0 <= i < |ticks| :: ticks[i] == Failed
    ensures StopsAt(patience, failures, ticks) == patience - 1 - failures
    decreases patience - failures
  {
    if failures + 1 < patience {
      StopsAfter(patience, failures + 1, ticks[1..]);
    }
  }

  /** The run always ends before its lease exactly when the loop starts soon enough after
      the lease was acquired. */
  lemma {:induction false} SafeExactly(ttl: int, start: int, delay: int)
    requires ttl >= 3 && delay >= 0
    ensures (forall ticks :: Safe(ttl, start, delay, ticks)) <==> delay < ttl - Bound(ttl)
  {
    if delay < ttl - Bound(ttl) {
      forall ticks
        ensures Safe(ttl, start, delay, ticks)
      {
        SafeWhenPrompt(ttl, start, delay, ticks);
      }
    } else {
      UnsafeWhenLate(ttl, start, delay);
    }
  }

  lemma {:induction false} SafeWhenPrompt(ttl: int, start: int, delay: int, ticks: seq<Renewal>)
    requires ttl >= 3 && 0 <= delay < ttl - Bound(ttl)
    ensures Safe(ttl, start, delay, ticks)
  {
    forall i | 0 <= i <= StopsAt(Patience(ttl), 0, ticks)
      ensures TickTime(ttl, start, i) < LeaseEnd(ttl, start, delay, ticks[..i])
    {
      StopsBeforeExpiry(ttl, start, ticks, i);
      if Extended !in ticks[..i] {
        NeverExtended(ttl, start, ticks[..i]);
      }
    }
  }

  lemma {:induction false} UnsafeWhenLate(ttl: int, start: int, delay: int)
    requires ttl >= 3 && delay >= ttl - Bound(ttl)
    ensures !Safe(ttl, start, delay, seq(Patience(ttl), i => Failed))
  {
    var ticks := seq(Patience(ttl), i => Failed);
    var n := Patience(ttl) - 1;
    StopsAfter(Patience(ttl), 0, ticks);
    assert Extended !in ticks[..n];
    assert TickTime(ttl, start, n) == start + Bound(ttl);
  }
}
