/**
  A scheduled run as steps of the lease protocol: what Fire does to the store is what its
  acquires, renewals and release do in a run of the replicas with nothing in between.
 */
module CronFire {
  import opened CronKeys
  import opened CronLease

  /** Time goes on. */
  predicate Ascending(now: int, times: seq<int>, ends: int)
    decreases |times|
  {
    if times == [] then now < ends else now < times[0] && Ascending(times[0], times[1..], ends)
  }

  /** The renewals of a run, each at its time. */
  function RenewSteps(name: string, token: int, ttl: int, times: seq<int>): seq<Event> {
    if times == [] then [] else [Tick(times[0]), Renew(name, token, ttl)] + RenewSteps(name, token, ttl, times[1..])
  }

  /** The end of a run: the lease is renewed until then and given back. */
  function RestSteps(name: string, token: int, ttl: int, times: seq<int>, ends: int): seq<Event> {
    RenewSteps(name, token, ttl, times) + [Tick(ends), Release(name, token)]
  }

  lemma {:induction false} TwoSteps(stamps: Stamps, s: State, a: Event, b: Event, es: seq<Event>)
    ensures Run(stamps, s, [a, b] + es) == Run(stamps, Apply(stamps, Apply(stamps, s, a), b), es)
  {
    hide Apply;
    assert ([a, b] + es)[1..] == [b] + es && ([b] + es)[1..] == es;
  }

  lemma {:induction false} RestIs(stamps: Stamps, s: State, name: string, token: int, ttl: int, times: seq<int>,
                                  ends: int)
    requires Ascending(s.now, times, ends)
    ensures Run(stamps, s, RestSteps(name, token, ttl, times, ends)).db
         == Released(Renewals(s.db, LeaseKey(name), token, ttl, times), ends, LeaseKey(name), token)
    decreases |times|
  {
    hide LeaseKey, Expire, HeldBy;
    var es := RestSteps(name, token, ttl, times, ends);
    if times == [] {
      assert es == [Tick(ends), Release(name, token)] + [];
      TwoSteps(stamps, s, Tick(ends), Release(name, token), []);
    } else {
      var a, b := Tick(times[0]), Renew(name, token, ttl);
      var t := Apply(stamps, Apply(stamps, s, a), b);
      assert es == [a, b] + RestSteps(name, token, ttl, times[1..], ends);
      TwoSteps(stamps, s, a, b, RestSteps(name, token, ttl, times[1..], ends));
      RestIs(stamps, t, name, token, ttl, times[1..], ends);
    }
  }

  /** Fire acquires the lease for its time to live, then claims the slot for the slot's, then
      renews the lease at each tick for the lease's and gives it back; without the lease it
      does nothing more, and without the slot it gives the lease back at once. */
  lemma {:induction false} StepsOfFire(stamps: Stamps, s: State, name: string, at: int, lockTTL: int, slotTTL: int,
                                       times: seq<int>, ends: int)
    requires Ascending(s.now, times, ends)
    ensures var (db, token) := Fired(s.db, s.now, LeaseKey(name), SlotKey(name, stamps.text(at)), lockTTL, slotTTL,
                                     times, ends);
            var s1 := Apply(stamps, s, Acquire(Lease(name), lockTTL));
            var s2 := Apply(stamps, s1, Acquire(Slot(name, at), slotTTL));
            if |s1.grants| == |s.grants| then token == None && db == s1.db
            else
              && |s1.grants| == |s.grants| + 1
              && var t := s1.grants[|s.grants|].token;
                 if |s2.grants| == |s1.grants| then token == None && db == Apply(stamps, s2, Release(name, t)).db
                 else token == Some(t) && db == Run(stamps, s2, RestSteps(name, t, lockTTL, times, ends)).db
  {
    hide LeaseKey, SlotKey, Acquired, TokenOf, RestSteps, Renewals, Run;
    var s1 := Apply(stamps, s, Acquire(Lease(name), lockTTL));
    var s2 := Apply(stamps, s1, Acquire(Slot(name, at), slotTTL));
    if |s1.grants| > |s.grants| {
      RestIs(stamps, s2, name, s1.grants[|s.grants|].token, lockTTL, times, ends);
    }
  }
}
