/**
  What every run of the lease protocol keeps: tokens that grow, one holder at a time,
  no effect of a stale token, at most one run per slot.
 */
module CronLaws {
  import opened CronKeys
  import opened CronLease

  // ----- one step -----

  /** Acquiring touches the key and its counter. */
  lemma {:induction false} AcquiredElsewhere(db: Db, now: int, key: string, ttl: int, x: string)
    requires x != key && x != FenceKey(key)
    ensures x in Acquired(db, now, key, ttl) <==> x in db
    ensures x in db ==> Acquired(db, now, key, ttl)[x] == db[x]
  {
  }

  /** The counter only grows, and a token is its new value. */
  lemma {:induction false} CounterGrows(stamps: Stamps, db: Db, now: int, key: JobKey, ttl: int, k: JobKey)
    requires Lawful(stamps) && Fences(stamps, db)
    ensures var f, db' := FenceOf(stamps, k), Acquired(db, now, Text(stamps, key), ttl);
            && (f in db ==> f in db' && db'[f].value >= db[f].value)
            && (f in db' ==> db'[f].expires.None? && db'[f].value >= 0)
            && (TokenOf(db, now, Text(stamps, key), ttl).Some? && f == FenceOf(stamps, key) ==>
                  && f in db' && db'[f].value == TokenOf(db, now, Text(stamps, key), ttl).value
                  && db'[f].value > (if f in db then db[f].value else 0))
  {
    hide Text, FenceKey, Lawful;
    var f := FenceOf(stamps, k);
    FenceIsNoJobKey(stamps, key, Text(stamps, k));
    FenceIsNoJobKey(stamps, key, Text(stamps, key));
    if f != FenceOf(stamps, key) {
      AcquiredElsewhere(db, now, Text(stamps, key), ttl, f);
    }
  }

  /** Renewing and releasing touch the lease alone. */
  lemma {:induction false} FenceUntouched(stamps: Stamps, s: State, e: Event, k: JobKey)
    requires Lawful(stamps) && (e.Renew? || e.Release? || e.Tick?)
    ensures var f := FenceOf(stamps, k);
            && (f in Apply(stamps, s, e).db <==> f in s.db)
            && (f in s.db ==> Apply(stamps, s, e).db[f] == s.db[f])
  {
    hide FenceKey, Lawful;
    if !e.Tick? {
      FenceIsNoJobKey(stamps, Lease(e.name), Text(stamps, k));
    }
  }

  lemma {:induction false} CounterKept(stamps: Stamps, s: State, e: Event, k: JobKey)
    requires Lawful(stamps) && Fences(stamps, s.db)
    ensures var f, db' := FenceOf(stamps, k), Apply(stamps, s, e).db;
            && (f in s.db ==> f in db' && db'[f].value >= s.db[f].value)
            && (f in db' ==> db'[f].expires.None? && db'[f].value >= 0)
  {
    hide Text, FenceKey, Lawful, Acquired, Renewed, Released, FenceOf, TokenOf;
    if e.Acquire? {
      CounterGrows(stamps, s.db, s.now, e.key, e.ttl, k);
    } else {
      FenceUntouched(stamps, s, e, k);
    }
  }

  /** What a holder believes stays true, whatever the others do. */
  lemma {:induction false} BeliefKept(stamps: Stamps, s: State, e: Event, g: Grant)
    requires Lawful(stamps) && Believed(stamps, s, g)
    requires e.Acquire? || e.Tick?
    ensures Believed(stamps, Apply(stamps, s, e), g)
  {
    hide FenceKey, Lawful, Text;
    if e.Acquire? && s.now < g.until {
      FenceIsNoJobKey(stamps, g.key, Text(stamps, e.key));
      if g.key != e.key {
        TextsDiffer(stamps, g.key, e.key);
        AcquiredElsewhere(s.db, s.now, Text(stamps, e.key), e.ttl, Text(stamps, g.key));
      }
    }
  }

  lemma {:induction false} TextsDiffer(stamps: Stamps, k: JobKey, j: JobKey)
    requires Lawful(stamps)
    ensures Text(stamps, k) == Text(stamps, j) ==> k == j
  {
    if Text(stamps, k) == Text(stamps, j) {
      KeysInjective(stamps, k, j);
    }
  }

  lemma {:induction false} BeliefAfterTouch(stamps: Stamps, s: State, e: Event, i: nat)
    requires Lawful(stamps) && i < |s.grants| && Believed(stamps, s, s.grants[i])
    requires e.Renew? || e.Release?
    ensures i < |Apply(stamps, s, e).grants| && Believed(stamps, Apply(stamps, s, e), Apply(stamps, s, e).grants[i])
  {
    hide FenceKey, Lawful;
    var g := s.grants[i];
    TextsDiffer(stamps, g.key, Lease(e.name));
  }

  // ----- the invariant holds in every run -----

  lemma {:induction false} OldGrant(stamps: Stamps, s: State, e: Event, i: nat)
    requires Lawful(stamps) && Inv(stamps, s) && i < |s.grants|
    ensures var t := Apply(stamps, s, e);
            && i < |t.grants| && t.grants[i].key == s.grants[i].key && t.grants[i].token == s.grants[i].token
            && Counted(stamps, t.db, t.grants[i]) && Believed(stamps, t, t.grants[i])
  {
    hide Text, FenceKey, Lawful, Growing, Fences;
    GrantStays(stamps, s, e, i);
    CounterKept(stamps, s, e, s.grants[i].key);
    if e.Renew? || e.Release? {
      BeliefAfterTouch(stamps, s, e, i);
    } else {
      BeliefKept(stamps, s, e, s.grants[i]);
    }
  }

  lemma {:induction false} GrantStays(stamps: Stamps, s: State, e: Event, i: nat)
    requires i < |s.grants|
    ensures var t := Apply(stamps, s, e);
            && i < |t.grants| && t.grants[i].key == s.grants[i].key && t.grants[i].token == s.grants[i].token
            && (e.Acquire? || e.Tick? ==> t.grants[i] == s.grants[i])
  {
    hide Text, FenceKey, Acquired, Renewed, Released, TokenOf;
  }

  lemma {:induction false} NewGrant(stamps: Stamps, s: State, e: Event)
    requires Lawful(stamps) && Inv(stamps, s) && |Apply(stamps, s, e).grants| > |s.grants|
    ensures var t := Apply(stamps, s, e);
            var n := |s.grants|;
            && |t.grants| == n + 1 && e.Acquire? && t.grants[n].key == e.key
            && Counted(stamps, t.db, t.grants[n]) && Believed(stamps, t, t.grants[n])
            && (FenceOf(stamps, e.key) in s.db ==> t.grants[n].token > s.db[FenceOf(stamps, e.key)].value)
  {
    hide Text, FenceKey, Lawful, Growing, Counted, Believed;
    assert e.Acquire?;
    CounterGrows(stamps, s.db, s.now, e.key, e.ttl, e.key);
    FreshGrant(stamps, s, e.key, e.ttl);
  }

  lemma {:induction false} FreshGrant(stamps: Stamps, s: State, key: JobKey, ttl: int)
    requires Lawful(stamps) && Fences(stamps, s.db) && TokenOf(s.db, s.now, Text(stamps, key), ttl).Some?
    ensures var t := OnAcquire(stamps, s, key, ttl);
            var g := t.grants[|s.grants|];
            Counted(stamps, t.db, g) && Believed(stamps, t, g)
  {
    hide Text, FenceKey, Lawful;
    CounterGrows(stamps, s.db, s.now, key, ttl, key);
    FenceIsNoJobKey(stamps, key, Text(stamps, key));
  }

  lemma {:induction false} StepKeeps(stamps: Stamps, s: State, e: Event)
    requires Lawful(stamps) && Inv(stamps, s)
    ensures Inv(stamps, Apply(stamps, s, e))
  {
    hide Text, FenceKey, Lawful, Apply, FenceOf, Counted, Believed;
    var t := Apply(stamps, s, e);
    forall k: JobKey
      ensures FenceOf(stamps, k) in t.db
              ==> t.db[FenceOf(stamps, k)].expires.None? && t.db[FenceOf(stamps, k)].value >= 0
    {
      CounterKept(stamps, s, e, k);
    }
    forall i | 0 <= i < |t.grants|
      ensures Counted(stamps, t.db, t.grants[i]) && Believed(stamps, t, t.grants[i])
    {
      if i < |s.grants| {
        OldGrant(stamps, s, e, i);
      } else {
        NewGrant(stamps, s, e);
      }
    }
    forall i, j | 0 <= i < j < |t.grants| && FenceOf(stamps, t.grants[i].key) == FenceOf(stamps, t.grants[j].key)
      ensures t.grants[i].token < t.grants[j].token
    {
      TokensGrow(stamps, s, e, i, j);
    }
    forall i, j | 0 <= i < j < |t.grants| && t.grants[i].key == t.grants[j].key && Text(stamps, t.grants[j].key) in t.db
      ensures t.db[Text(stamps, t.grants[j].key)].value != t.grants[i].token
    {
      StaysSuperseded(stamps, s, e, i, j);
    }
  }

  /** Only a grant changes the value of a job's key. */
  lemma {:induction false} ValueKept(stamps: Stamps, s: State, e: Event, k: JobKey)
    requires Lawful(stamps)
    ensures var x, t := Text(stamps, k), Apply(stamps, s, e);
            x in t.db && !(|t.grants| > |s.grants| && e.Acquire? && e.key == k) ==>
              x in s.db && t.db[x].value == s.db[x].value
  {
    hide FenceKey, Lawful;
    if e.Acquire? {
      FenceIsNoJobKey(stamps, k, Text(stamps, e.key));
      TextsDiffer(stamps, k, e.key);
    }
  }

  lemma {:induction false} StaysSuperseded(stamps: Stamps, s: State, e: Event, i: nat, j: nat)
    requires Lawful(stamps) && Inv(stamps, s) && i < j < |Apply(stamps, s, e).grants|
    requires var t := Apply(stamps, s, e); t.grants[i].key == t.grants[j].key && Text(stamps, t.grants[j].key) in t.db
    ensures var t := Apply(stamps, s, e); t.db[Text(stamps, t.grants[j].key)].value != t.grants[i].token
  {
    hide Text, FenceKey, Lawful, Apply, FenceOf, Believed, Counted;
    var t := Apply(stamps, s, e);
    GrantsBound(stamps, s, e);
    GrantStays(stamps, s, e, i);
    TokensGrow(stamps, s, e, i, j);
    if |t.grants| > |s.grants| {
      NewGrant(stamps, s, e);
      GrantedValue(stamps, s, e);
    }
    ValueKept(stamps, s, e, t.grants[j].key);
    if j < |s.grants| {
      GrantStays(stamps, s, e, j);
      if |t.grants| > |s.grants| && t.grants[|s.grants|].key == t.grants[j].key {
        TokensGrow(stamps, s, e, i, |s.grants|);
      }
    }
  }

  lemma {:induction false} GrantedValue(stamps: Stamps, s: State, e: Event)
    requires e.Acquire? && |Apply(stamps, s, e).grants| > |s.grants|
    ensures var t := Apply(stamps, s, e);
            Text(stamps, e.key) in t.db && t.db[Text(stamps, e.key)].value == t.grants[|s.grants|].token
  {
    hide Text, FenceKey;
  }

  lemma {:induction false} TokensGrow(stamps: Stamps, s: State, e: Event, i: nat, j: nat)
    requires Lawful(stamps) && Inv(stamps, s) && i < j < |Apply(stamps, s, e).grants|
    requires var t := Apply(stamps, s, e); FenceOf(stamps, t.grants[i].key) == FenceOf(stamps, t.grants[j].key)
    ensures Apply(stamps, s, e).grants[i].token < Apply(stamps, s, e).grants[j].token
  {
    hide Text, FenceKey, Lawful, Apply, FenceOf, Believed;
    if j < |s.grants| {
      GrantStays(stamps, s, e, i);
      GrantStays(stamps, s, e, j);
    } else {
      NewGrant(stamps, s, e);
      GrantStays(stamps, s, e, i);
      assert Counted(stamps, s.db, s.grants[i]);
    }
  }

  lemma {:induction false} RunKeeps(stamps: Stamps, s: State, es: seq<Event>)
    requires Lawful(stamps) && Inv(stamps, s)
    ensures Inv(stamps, Run(stamps, s, es))
    decreases |es|
  {
    hide Apply, Inv;
    if es != [] {
      StepKeeps(stamps, s, es[0]);
      RunKeeps(stamps, Apply(stamps, s, es[0]), es[1..]);
    }
  }

  /** Nothing granted yet; counters may exist already. */
  ghost predicate Initial(stamps: Stamps, s: State) {
    s.grants == [] && Fences(stamps, s.db)
  }

  // ----- the laws -----

  /** Over every run, the tokens of a job's lease and of all its slots grow with each grant. */
  lemma {:induction false} TokensOfAJobGrow(stamps: Stamps, s: State, es: seq<Event>, i: nat, j: nat)
    requires Lawful(stamps) && Initial(stamps, s)
    requires i < j < |Run(stamps, s, es).grants|
    requires Run(stamps, s, es).grants[i].key.name == Run(stamps, s, es).grants[j].key.name
    ensures Run(stamps, s, es).grants[i].token < Run(stamps, s, es).grants[j].token
  {
    hide Run, Text, FenceKey;
    RunKeeps(stamps, s, es);
    var gs := Run(stamps, s, es).grants;
    OneFencePerJob(stamps, gs[i].key);
    OneFencePerJob(stamps, gs[j].key);
  }

  /** Over every run, a key has at most one holder whose time is not up, and the store
      agrees with that holder. */
  lemma {:induction false} OneHolderAtATime(stamps: Stamps, s: State, es: seq<Event>, i: nat, j: nat)
    requires Lawful(stamps) && Initial(stamps, s)
    requires var t := Run(stamps, s, es);
             && i < |t.grants| && j < |t.grants| && t.grants[i].key == t.grants[j].key
             && t.now < t.grants[i].until && t.now < t.grants[j].until
    ensures i == j
    ensures var t := Run(stamps, s, es); HeldBy(t.db, t.now, Text(stamps, t.grants[i].key), t.grants[i].token)
  {
    hide Run, Text, FenceKey;
    RunKeeps(stamps, s, es);
    var t := Run(stamps, s, es);
    assert Believed(stamps, t, t.grants[i]) && Believed(stamps, t, t.grants[j]);
  }

  /** A token that no longer holds the lease changes nothing. */
  lemma {:induction false} StaleTokenChangesNothing(stamps: Stamps, s: State, name: string, token: int, ttl: int)
    requires !HeldBy(s.db, s.now, LeaseKey(name), token)
    ensures Apply(stamps, s, Renew(name, token, ttl)) == s
    ensures Apply(stamps, s, Release(name, token)) == s
  {
  }

  /** Once the key has been granted again, the older token never holds it any more. */
  lemma {:induction false} OlderTokenIsStale(stamps: Stamps, s: State, es: seq<Event>, i: nat, j: nat)
    requires Lawful(stamps) && Initial(stamps, s)
    requires i < j < |Run(stamps, s, es).grants| && Run(stamps, s, es).grants[i].key == Run(stamps, s, es).grants[j].key
    ensures var t := Run(stamps, s, es); !HeldBy(t.db, t.now, Text(stamps, t.grants[i].key), t.grants[i].token)
  {
    hide Run, Text, FenceKey;
    RunKeeps(stamps, s, es);
  }

  // ----- a sink that keeps the highest token -----

  /** The writes, each named by the grant its writer holds or once held, that a sink
      applies when it takes a token only above the last one it took. */
  function Accepted(gs: seq<Grant>, fence: int, writes: seq<nat>): (r: seq<nat>)
    requires forall i | 0 <= i < |writes| :: writes[i] < |gs|
    ensures forall i | 0 <= i < |r| :: r[i] in writes && r[i] < |gs| && fence < gs[r[i]].token
    decreases |writes|
  {
    if writes == [] then []
    else if fence < gs[writes[0]].token then [writes[0]] + Accepted(gs, gs[writes[0]].token, writes[1..])
    else Accepted(gs, fence, writes[1..])
  }

  lemma {:induction false} AcceptedGrows(gs: seq<Grant>, fence: int, writes: seq<nat>, a: nat, b: nat)
    requires forall i | 0 <= i < |writes| :: writes[i] < |gs|
    requires a < b < |Accepted(gs, fence, writes)|
    ensures var r := Accepted(gs, fence, writes); gs[r[a]].token < gs[r[b]].token
    decreases |writes|
  {
    hide Accepted;
    AcceptedStep(gs, fence, writes);
    if fence < gs[writes[0]].token {
      if a > 0 {
        AcceptedGrows(gs, gs[writes[0]].token, writes[1..], a - 1, b - 1);
      }
    } else {
      AcceptedGrows(gs, fence, writes[1..], a, b);
    }
  }

  lemma {:induction false} AcceptedStep(gs: seq<Grant>, fence: int, writes: seq<nat>)
    requires (forall i | 0 <= i < |writes| :: writes[i] < |gs|) && Accepted(gs, fence, writes) != []
    ensures writes != [] && forall i | 0 <= i < |writes[1..]| :: writes[1..][i] < |gs|
    ensures Accepted(gs, fence, writes) == if fence < gs[writes[0]].token
              then [writes[0]] + Accepted(gs, gs[writes[0]].token, writes[1..]) else Accepted(gs, fence, writes[1..])
  {
  }

  /** However late and in whatever order the holders of a job's lease write, what the sink
      applies follows the order of the grants. */
  lemma {:induction false} SinkFollowsTheGrants(stamps: Stamps, s: State, es: seq<Event>, name: string, fence: int,
                                                writes: seq<nat>, a: nat, b: nat)
    requires Lawful(stamps) && Initial(stamps, s)
    requires forall i | 0 <= i < |writes| :: writes[i] < |Run(stamps, s, es).grants|
    requires forall w | w in writes && w < |Run(stamps, s, es).grants| :: Run(stamps, s, es).grants[w].key.name == name
    requires a < b < |Accepted(Run(stamps, s, es).grants, fence, writes)|
    ensures var r := Accepted(Run(stamps, s, es).grants, fence, writes); r[a] < r[b]
  {
    hide Run;
    var gs := Run(stamps, s, es).grants;
    var r := Accepted(gs, fence, writes);
    AcceptedGrows(gs, fence, writes, a, b);
    assert r[a] in writes && r[b] in writes;
    if r[b] < r[a] {
      TokensOfAJobGrow(stamps, s, es, r[b], r[a]);
    }
  }

  // ----- one run per slot -----

  /** The slot a tick falls into: the tick rounded down to the interval. */
  function SlotAt(now: int, interval: int): (slot: int)
    requires interval > 0
    ensures slot <= now < slot + interval
  {
    now - now % interval
  }

  /** A claim made less than late after its slot began, for one interval. */
  predicate Prompt(s: State, e: Event, interval: int, late: int) {
    e.Acquire? && e.key.Slot? ==> e.ttl == interval && e.key.at <= s.now < e.key.at + late
  }

  predicate PromptRun(stamps: Stamps, s: State, es: seq<Event>, interval: int, late: int)
    decreases |es|
  {
    || es == []
    || (Prompt(s, es[0], interval, late) && PromptRun(stamps, Apply(stamps, s, es[0]), es[1..], interval, late))
  }

  /** A claim lasts until nobody claims its slot any more. */
  predicate Covers(g: Grant, late: int) {
    g.key.Slot? ==> g.until >= g.key.at + late
  }

  /** Each slot was claimed once. */
  ghost predicate OncePerSlot(s: State) {
    forall i, j | 0 <= i < j < |s.grants| && s.grants[i].key.Slot? :: s.grants[i].key != s.grants[j].key
  }

  ghost predicate Claims(s: State, late: int) {
    OncePerSlot(s) && forall i | 0 <= i < |s.grants| :: Covers(s.grants[i], late)
  }

  lemma {:induction false} ClaimStays(stamps: Stamps, s: State, e: Event, i: nat)
    requires i < |s.grants| && s.grants[i].key.Slot?
    ensures i < |Apply(stamps, s, e).grants| && Apply(stamps, s, e).grants[i] == s.grants[i]
  {
    hide Text, FenceKey, Acquired, Renewed, Released, TokenOf;
  }

  /** While its slot lasts, a claimed slot is not claimed again. */
  lemma {:induction false} ClaimedSlotRefuses(stamps: Stamps, s: State, e: Event, interval: int, late: int, i: nat)
    requires Lawful(stamps) && Inv(stamps, s) && Claims(s, late) && Prompt(s, e, interval, late)
    requires i < |s.grants| && e.Acquire? && e.key.Slot? && s.grants[i].key == e.key
    ensures Apply(stamps, s, e).grants == s.grants
  {
    hide Text, FenceKey, Growing, Fences, Superseded, Lawful;
    assert Believed(stamps, s, s.grants[i]) && Covers(s.grants[i], late);
  }

  lemma {:induction false} ClaimsKept(stamps: Stamps, s: State, e: Event, interval: int, late: int)
    requires late <= interval && Lawful(stamps) && Inv(stamps, s) && Claims(s, late) && Prompt(s, e, interval, late)
    ensures Claims(Apply(stamps, s, e), late)
  {
    hide Text, FenceKey, Apply, Inv, Lawful;
    var t := Apply(stamps, s, e);
    forall i | 0 <= i < |t.grants|
      ensures Covers(t.grants[i], late)
    {
      if i < |s.grants| {
        GrantStays(stamps, s, e, i);
        assert Covers(s.grants[i], late);
        if s.grants[i].key.Slot? {
          ClaimStays(stamps, s, e, i);
        }
      } else {
        NewClaim(stamps, s, e, interval, late);
      }
    }
    forall i, j | 0 <= i < j < |t.grants| && t.grants[i].key.Slot?
      ensures t.grants[i].key != t.grants[j].key
    {
      GrantStays(stamps, s, e, i) by { GrantsBound(stamps, s, e); }
      if j < |s.grants| {
        GrantStays(stamps, s, e, j);
      } else {
        NewClaim(stamps, s, e, interval, late);
        if s.grants[i].key == t.grants[j].key {
          ClaimedSlotRefuses(stamps, s, e, interval, late, i);
        }
      }
    }
  }

  lemma {:induction false} GrantsBound(stamps: Stamps, s: State, e: Event)
    ensures |s.grants| <= |Apply(stamps, s, e).grants| <= |s.grants| + 1
  {
    hide Text, FenceKey, Acquired, Renewed, Released, TokenOf;
  }

  lemma {:induction false} NewClaim(stamps: Stamps, s: State, e: Event, interval: int, late: int)
    requires late <= interval && Prompt(s, e, interval, late) && |Apply(stamps, s, e).grants| > |s.grants|
    ensures var t, n := Apply(stamps, s, e), |s.grants|;
            |t.grants| == n + 1 && e.Acquire? && t.grants[n].key == e.key && Covers(t.grants[n], late)
  {
    hide Text, FenceKey, Acquired, Renewed, Released, TokenOf;
  }

  lemma {:induction false} ClaimsRun(stamps: Stamps, s: State, es: seq<Event>, interval: int, late: int)
    requires late <= interval && Lawful(stamps) && Inv(stamps, s) && Claims(s, late)
    requires PromptRun(stamps, s, es, interval, late)
    ensures Claims(Run(stamps, s, es), late)
    decreases |es|
  {
    hide Apply, Inv, Claims;
    if es != [] {
      StepKeeps(stamps, s, es[0]);
      ClaimsKept(stamps, s, es[0], interval, late);
      ClaimsRun(stamps, Apply(stamps, s, es[0]), es[1..], interval, late);
    }
  }

  /** When every claim is made within one interval of its slot's start, each slot runs at
      most once over the whole run, although the claim expires after one interval. */
  lemma {:induction false} EachSlotRunsOnce(stamps: Stamps, s: State, es: seq<Event>, interval: int, late: int)
    requires Lawful(stamps) && Initial(stamps, s) && PromptRun(stamps, s, es, interval, late) && late <= interval
    ensures OncePerSlot(Run(stamps, s, es))
  {
    hide Run;
    ClaimsRun(stamps, s, es, interval, late);
  }

  /** A slot that is fired twice, one interval apart: each time the lease is taken, the slot
      claimed and the lease given back. */
  function FiredTwice(name: string, slot: int, interval: int, lock: int): seq<Event> {
    var lease, claim := Acquire(Lease(name), lock), Acquire(Slot(name, slot), interval);
    [lease, claim, Release(name, 1), Tick(slot + interval), lease, claim]
  }

  /** The keys of one job, and its counter. */
  lemma {:induction false} JobKeys(stamps: Stamps, name: string, slot: int)
    requires Lawful(stamps)
    ensures var l, c, f := Text(stamps, Lease(name)), Text(stamps, Slot(name, slot)), FenceOf(stamps, Lease(name));
            && l != c && l != f && c != f && FenceKey(c) == f && FenceKey(l) == f && l == LeaseKey(name)
  {
    hide FenceKey, Lawful;
    var k, j := Lease(name), Slot(name, slot);
    TextsDiffer(stamps, k, j);
    FenceIsNoJobKey(stamps, k, Text(stamps, k));
    FenceIsNoJobKey(stamps, k, Text(stamps, j));
    FenceIsNoJobKey(stamps, j, Text(stamps, j));
    OneFencePerJob(stamps, k);
    OneFencePerJob(stamps, j);
  }

  /** Firing a slot when lease and slot are free: two tokens, and the claim stays. */
  lemma {:induction false} FiringSteps(stamps: Stamps, s: State, name: string, slot: int, interval: int, lock: int)
    requires Lawful(stamps) && lock > 0 && interval > 0
    requires var l, c, f := Text(stamps, Lease(name)), Text(stamps, Slot(name, slot)), FenceOf(stamps, Lease(name));
             && !Live(s.db, s.now, l) && !Live(s.db, s.now, c) && (f in s.db ==> s.db[f].expires.None?)
    ensures var f := FenceOf(stamps, Lease(name));
            var n := if f in s.db then s.db[f].value else 0;
            var t := Apply(stamps, Apply(stamps, s, Acquire(Lease(name), lock)), Acquire(Slot(name, slot), interval));
            && t.now == s.now && f in t.db && t.db[f] == Cell(n + 2, None)
            && t.grants == s.grants
                 + [Grant(Lease(name), n + 1, s.now + lock), Grant(Slot(name, slot), n + 2, s.now + interval)]
            && Text(stamps, Lease(name)) in t.db && t.db[Text(stamps, Lease(name))] == Cell(n + 1, Some(s.now + lock))
            && Text(stamps, Slot(name, slot)) in t.db
            && t.db[Text(stamps, Slot(name, slot))] == Cell(n + 2, Some(s.now + interval))
  {
    hide FenceKey, Text, Lawful;
    JobKeys(stamps, name, slot);
  }

  /** The second time runs the slot again. */
  lemma {:induction false} LateClaimRunsAgain(stamps: Stamps, name: string, slot: int, interval: int, lock: int)
    requires Lawful(stamps) && interval > 0 && lock > 0
    ensures !OncePerSlot(Run(stamps, State(slot, map[], []), FiredTwice(name, slot, interval, lock)))
  {
    hide FenceKey, Text, Lawful, Run;
    var s0, es := State(slot, map[], []), FiredTwice(name, slot, interval, lock);
    JobKeys(stamps, name, slot);
    FiringSteps(stamps, s0, name, slot, interval, lock);
    var s1 := Apply(stamps, s0, es[0]);
    var s2 := Apply(stamps, s1, es[1]);
    var s4 := Apply(stamps, Apply(stamps, s2, es[2]), es[3]);
    LeaseGivenBack(stamps, s2, name, slot, interval, lock);
    FiringSteps(stamps, s4, name, slot, interval, lock);
    var s5 := Apply(stamps, s4, es[4]);
    var s6 := Apply(stamps, s5, es[5]);
    SixSteps(stamps, s0, es);
    assert s6.grants[1].key == Slot(name, slot) == s6.grants[3].key;
  }

  /** The lease given back, and one interval later. */
  lemma {:induction false} LeaseGivenBack(stamps: Stamps, s: State, name: string, slot: int, interval: int, lock: int)
    requires Lawful(stamps) && lock > 0 && interval > 0 && s.now == slot
    requires var l, c, f := Text(stamps, Lease(name)), Text(stamps, Slot(name, slot)), FenceOf(stamps, Lease(name));
             && l in s.db && s.db[l] == Cell(1, Some(slot + lock))
             && c in s.db && s.db[c] == Cell(2, Some(slot + interval))
             && f in s.db && s.db[f] == Cell(2, None)
    requires s.grants == [Grant(Lease(name), 1, slot + lock), Grant(Slot(name, slot), 2, slot + interval)]
    ensures var l, c, f := Text(stamps, Lease(name)), Text(stamps, Slot(name, slot)), FenceOf(stamps, Lease(name));
            var t := Apply(stamps, Apply(stamps, s, Release(name, 1)), Tick(slot + interval));
            && t.now == slot + interval && !Live(t.db, t.now, l) && !Live(t.db, t.now, c)
            && f in t.db && t.db[f] == Cell(2, None)
            && |t.grants| == 2 && t.grants[1].key == Slot(name, slot)
  {
    hide FenceKey, Text, Lawful;
    JobKeys(stamps, name, slot);
  }

  lemma {:induction false} RunCons(stamps: Stamps, s: State, e: Event, es: seq<Event>)
    ensures Run(stamps, s, [e] + es) == Run(stamps, Apply(stamps, s, e), es) && Run(stamps, s, []) == s
  {
    hide Apply;
    assert ([e] + es)[1..] == es;
  }

  lemma {:induction false} SixSteps(stamps: Stamps, s: State, es: seq<Event>)
    requires |es| == 6
    ensures var t := Apply(stamps, Apply(stamps, Apply(stamps, s, es[0]), es[1]), es[2]);
            Run(stamps, s, es) == Apply(stamps, Apply(stamps, Apply(stamps, t, es[3]), es[4]), es[5])
  {
    hide Apply, Run;
    var s1 := Apply(stamps, s, es[0]);
    var s2 := Apply(stamps, s1, es[1]);
    var s3 := Apply(stamps, s2, es[2]);
    var s4 := Apply(stamps, s3, es[3]);
    var s5 := Apply(stamps, s4, es[4]);
    assert es == [es[0]] + es[1..] && es[1..] == [es[1]] + es[2..] && es[2..] == [es[2]] + es[3..];
    assert es[3..] == [es[3]] + es[4..] && es[4..] == [es[4]] + es[5..] && es[5..] == [es[5]] + [];
    RunCons(stamps, s, es[0], es[1..]);
    RunCons(stamps, s1, es[1], es[2..]);
    RunCons(stamps, s2, es[2], es[3..]);
    RunCons(stamps, s3, es[3], es[4..]);
    RunCons(stamps, s4, es[4], es[5..]);
    RunCons(stamps, s5, es[5], []);
    RunCons(stamps, Apply(stamps, s5, es[5]), es[5], []);
  }

  lemma {:induction false} FiredTwiceIsPrompt(stamps: Stamps, name: string, slot: int, interval: int, lock: int,
                                              late: int)
    requires 0 < interval < late
    ensures PromptRun(stamps, State(slot, map[], []), FiredTwice(name, slot, interval, lock), interval, late)
  {
    hide PromptRun, FenceKey, Text, Acquired, TokenOf;
    var es := FiredTwice(name, slot, interval, lock);
    var s0 := State(slot, map[], []);
    var s1 := Apply(stamps, s0, es[0]);
    var s2 := Apply(stamps, s1, es[1]);
    var s3 := Apply(stamps, s2, es[2]);
    var s4 := Apply(stamps, s3, es[3]);
    var s5 := Apply(stamps, s4, es[4]);
    assert es == [es[0]] + es[1..] && es[1..] == [es[1]] + es[2..] && es[2..] == [es[2]] + es[3..];
    assert es[3..] == [es[3]] + es[4..] && es[4..] == [es[4]] + es[5..] && es[5..] == [es[5]] + [];
    PromptCons(stamps, s5, es[5], [], interval, late);
    PromptCons(stamps, s4, es[4], es[5..], interval, late);
    PromptCons(stamps, s3, es[3], es[4..], interval, late);
    PromptCons(stamps, s2, es[2], es[3..], interval, late);
    PromptCons(stamps, s1, es[1], es[2..], interval, late);
    PromptCons(stamps, s0, es[0], es[1..], interval, late);
  }

  lemma {:induction false} PromptCons(stamps: Stamps, s: State, e: Event, es: seq<Event>, interval: int, late: int)
    ensures PromptRun(stamps, s, [e] + es, interval, late)
       <==> Prompt(s, e, interval, late) && PromptRun(stamps, Apply(stamps, s, e), es, interval, late)
    ensures PromptRun(stamps, s, [], interval, late) && PromptRun(stamps, Apply(stamps, s, e), [], interval, late)
  {
    hide Apply, Prompt;
    assert ([e] + es)[1..] == es && ([e] + es)[0] == e;
  }

  /** Every slot runs at most once, in every run whose claims come less than late after
      their slot's start. */
  ghost predicate AlwaysOnce(stamps: Stamps, interval: int, late: int) {
    forall s, es | Initial(stamps, s) && PromptRun(stamps, s, es, interval, late) :: OncePerSlot(Run(stamps, s, es))
  }

  /** One run per slot is what the claims give exactly when none comes later than one
      interval after its slot's start. */
  lemma {:induction false} OneRunPerSlotExactly(stamps: Stamps, interval: int, late: int)
    requires Lawful(stamps) && interval > 0
    ensures AlwaysOnce(stamps, interval, late) <==> late <= interval
  {
    hide Run, PromptRun, OncePerSlot, Lawful;
    if late <= interval {
      forall s, es | Initial(stamps, s) && PromptRun(stamps, s, es, interval, late)
        ensures OncePerSlot(Run(stamps, s, es))
      {
        EachSlotRunsOnce(stamps, s, es, interval, late);
      }
    } else {
      FiredTwiceIsPrompt(stamps, "", 0, interval, 1, late);
      LateClaimRunsAgain(stamps, "", 0, interval, 1);
      assert Initial(stamps, State(0, map[], []));
    }
  }

  // ----- one scheduled run -----

  /** Renewing touches the lease alone. */
  lemma {:induction false} RenewalsElsewhere(db: Db, lease: string, token: int, ttl: int, times: seq<int>, x: string)
    requires x != lease
    ensures var r := Renewals(db, lease, token, ttl, times); (x in r <==> x in db) && (x in db ==> r[x] == db[x])
    decreases |times|
  {
    if times != [] {
      RenewalsElsewhere(Renewed(db, times[0], lease, token, ttl), lease, token, ttl, times[1..], x);
    }
  }

  /** A job runs exactly when both its lease and its slot are free; the claim then stays for
      its full time, and the lease is never left with the run's token. */
  lemma {:induction false} FiresExactlyWhenFree(stamps: Stamps, db: Db, now: int, name: string, at: int, lockTTL: int,
                                                slotTTL: int, times: seq<int>, ends: int)
    requires Lawful(stamps) && ends >= now
    ensures var lease, slot := LeaseKey(name), SlotKey(name, stamps.text(at));
            var (after, token) := Fired(db, now, lease, slot, lockTTL, slotTTL, times, ends);
            && (token.Some? <==> !Live(db, now, lease) && !Live(db, now, slot) && lockTTL > 0 && slotTTL > 0)
            && (token.Some? ==> !HeldBy(after, ends, lease, token.value))
            && (token.Some? ==> slot in after && after[slot].expires == Some(now + slotTTL))
            && (token.None? && !Live(db, now, lease) ==> !Live(after, now, lease))
  {
    hide FenceKey, Lawful, Renewals;
    var k, j := Lease(name), Slot(name, at);
    TextsDiffer(stamps, k, j);
    FenceIsNoJobKey(stamps, k, Text(stamps, k));
    FenceIsNoJobKey(stamps, k, Text(stamps, j));
    FenceIsNoJobKey(stamps, j, Text(stamps, k));
    FenceIsNoJobKey(stamps, j, Text(stamps, j));
    var token, leased := TokenOf(db, now, Text(stamps, k), lockTTL), Acquired(db, now, Text(stamps, k), lockTTL);
    if token.Some? {
      RenewalsElsewhere(Acquired(leased, now, Text(stamps, j), slotTTL), Text(stamps, k), token.value, lockTTL, times,
                        Text(stamps, j));
    }
  }
}
