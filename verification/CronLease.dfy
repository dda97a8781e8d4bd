/**
  The lease protocol of replicated jobs: the three scripts that run on the shared store,
  and every interleaving of them with the passing of time. Times are in milliseconds.
 */
module CronLease {
  import opened CronKeys

  datatype Option<+T> = None | Some(value: T)

  /** A stored value and when it expires. */
  datatype Cell = Cell(value: int, expires: Option<int>)

  type Db = map<string, Cell>

  predicate Live(db: Db, now: int, key: string) {
    key in db && (db[key].expires.Some? ==> now < db[key].expires.value)
  }

  predicate HeldBy(db: Db, now: int, key: string, token: int) {
    Live(db, now, key) && db[key].value == token
  }

  // ----- the commands the scripts are made of -----

  function Incr(db: Db, now: int, key: string): Db {
    if Live(db, now, key) then db[key := Cell(db[key].value + 1, db[key].expires)]
    else db[key := Cell(1, None)]
  }

  /** Setting a time to live that is not positive removes the key. */
  function Expire(db: Db, now: int, key: string, ttl: int): Db
    requires key in db
  {
    if ttl <= 0 then db - {key} else db[key := Cell(db[key].value, Some(now + ttl))]
  }

  // ----- the scripts -----

  /** What Acquire leaves in the store. A time to live that is not positive is refused by
      SET, after the counter has grown. */
  function Acquired(db: Db, now: int, key: string, ttl: int): Db {
    if Live(db, now, key) then db
    else
      var counted := Incr(db, now, FenceKey(key));
      if ttl <= 0 then counted else counted[key := Cell(counted[FenceKey(key)].value, Some(now + ttl))]
  }

  /** The token Acquire returns; None when it returns no token. */
  function TokenOf(db: Db, now: int, key: string, ttl: int): Option<int> {
    if Live(db, now, key) || ttl <= 0 then None else Some(Incr(db, now, FenceKey(key))[FenceKey(key)].value)
  }

  function Renewed(db: Db, now: int, key: string, token: int, ttl: int): Db {
    if HeldBy(db, now, key, token) then Expire(db, now, key, ttl) else db
  }

  function Released(db: Db, now: int, key: string, token: int): Db {
    if HeldBy(db, now, key, token) then db - {key} else db
  }

  /** The locker: its store and its clock. */
  class RedisLocker {
    var db: Db
    var now: int

    constructor (now: int)
      ensures this.db == map[] && this.now == now
    {
      this.db, this.now := map[], now;
    }

    /** err is set when the store refuses the command. */
    method Acquire(key: string, ttl: int) returns (token: int, ok: bool, err: bool)
      modifies this`db
      ensures db == Acquired(old(db), now, key, ttl)
      ensures ok <==> TokenOf(old(db), now, key, ttl).Some? && TokenOf(old(db), now, key, ttl).value > 0
      ensures ok ==> token == TokenOf(old(db), now, key, ttl).value
      ensures err <==> !Live(old(db), now, key) && ttl <= 0
      ensures Live(old(db), now, key) ==> db == old(db) && !ok
      ensures !Live(old(db), now, key) ==>
                var fence := FenceKey(key);
                var count := if Live(old(db), now, fence) then old(db)[fence].value + 1 else 1;
                && (ok <==> ttl > 0 && count > 0) && (ok ==> token == count)
                && (ttl > 0 ==> key in db && db[key] == Cell(count, Some(now + ttl)))
                && forall k | k != key && k != fence ::
                     (k in db <==> k in old(db)) && (k in db ==> db[k] == old(db)[k])
    {
      if Live(db, now, key) {
        return 0, false, false;
      }
      var fence := FenceKey(key);
      db := Incr(db, now, fence);
      token := db[fence].value;
      if ttl <= 0 {
        return 0, false, true;
      }
      db := db[key := Cell(token, Some(now + ttl))];
      return token, token > 0, false;
    }

    method Renew(key: string, token: int, ttl: int) returns (ok: bool)
      modifies this`db
      ensures ok == HeldBy(old(db), now, key, token)
      ensures db == Renewed(old(db), now, key, token, ttl)
      ensures !ok ==> db == old(db)
      ensures ok ==> db == if ttl > 0 then old(db)[key := Cell(token, Some(now + ttl))] else old(db) - {key}
    {
      if Live(db, now, key) && db[key].value == token {
        db := Expire(db, now, key, ttl);
        return true;
      }
      return false;
    }

    method Release(key: string, token: int)
      modifies this`db
      ensures db == Released(old(db), now, key, token)
      ensures db == if HeldBy(old(db), now, key, token) then old(db) - {key} else old(db)
    {
      if Live(db, now, key) && db[key].value == token {
        db := db - {key};
      }
    }
  }

  // ----- one run of a job -----

  /** The lease renewed at the given times. */
  function Renewals(db: Db, lease: string, token: int, ttl: int, times: seq<int>): Db {
    if times == [] then db else Renewals(Renewed(db, times[0], lease, token, ttl), lease, token, ttl, times[1..])
  }

  /** What firing a slot leaves in the store, and the fencing token the job ran with. The
      lease is renewed while the job runs and released however it ends; the claim of the
      slot stays. */
  function Fired(db: Db, now: int, lease: string, slot: string, lockTTL: int, slotTTL: int, times: seq<int>, ends: int)
    : (Db, Option<int>)
  {
    var token := TokenOf(db, now, lease, lockTTL);
    var leased := Acquired(db, now, lease, lockTTL);
    if token.None? then (leased, None)
    else
      var claim := TokenOf(leased, now, slot, slotTTL);
      var claimed := Acquired(leased, now, slot, slotTTL);
      if claim.None? then (Released(claimed, now, lease, token.value), None)
      else (Released(Renewals(claimed, lease, token.value, lockTTL, times), ends, lease, token.value), token)
  }

  /** A scheduled run: lease, claim, the job with its renewals until ends, release. */
  method Fire(l: RedisLocker, stamps: Stamps, name: string, at: int, lockTTL: int, slotTTL: int, times: seq<int>,
              ends: int)
      returns (token: Option<int>)
    requires forall k | FenceKey(k) in l.db :: l.db[FenceKey(k)].value >= 0
    modifies l
    ensures (l.db, token) == Fired(old(l.db), old(l.now), LeaseKey(name), SlotKey(name, stamps.text(at)), lockTTL,
                                   slotTTL, times, ends)
  {
    hide FenceKey;
    var lease, slot := LeaseKey(name), SlotKey(name, stamps.text(at));
    var t, ok, err := l.Acquire(lease, lockTTL);
    if !ok {
      return None;
    }
    var _, claimed, _ := l.Acquire(slot, slotTTL);
    if !claimed {
      l.Release(lease, t);
      return None;
    }
    ghost var before := l.db;
    assert times[0..] == times;
    for i := 0 to |times|
      invariant Renewals(l.db, lease, t, lockTTL, times[i..]) == Renewals(before, lease, t, lockTTL, times)
    {
      assert times[i..][0] == times[i] && times[i..][1..] == times[i + 1..];
      l.now := times[i];
      var _ := l.Renew(lease, t, lockTTL);
    }
    l.now := ends;
    l.Release(lease, t);
    return Some(t);
  }

  // ----- runs -----

  /** A lease or claim that was granted, and until when it was last known to last. */
  datatype Grant = Grant(key: JobKey, token: int, until: int)

  datatype State = State(now: int, db: Db, grants: seq<Grant>)

  /** Any replica may acquire any key and may renew or release with any token, its own or
      one that is long gone. */
  datatype Event =
    | Tick(to: int)
    | Acquire(key: JobKey, ttl: int)
    | Renew(name: string, token: int, ttl: int)
    | Release(name: string, token: int)

  /** The grant of token on key now lasts until then. */
  function Lasting(gs: seq<Grant>, key: JobKey, token: int, then': int): (r: seq<Grant>)
    ensures |r| == |gs|
    ensures forall i | 0 <= i < |gs| ::
              r[i] == if gs[i].key == key && gs[i].token == token then gs[i].(until := then') else gs[i]
  {
    seq(|gs|, i requires 0 <= i < |gs| =>
      if gs[i].key == key && gs[i].token == token then gs[i].(until := then') else gs[i])
  }

  function OnAcquire(stamps: Stamps, s: State, key: JobKey, ttl: int): State {
    var k := Text(stamps, key);
    var token := TokenOf(s.db, s.now, k, ttl);
    s.(db := Acquired(s.db, s.now, k, ttl),
       grants := if token.Some? then s.grants + [Grant(key, token.value, s.now + ttl)] else s.grants)
  }

  function OnRenew(stamps: Stamps, s: State, name: string, token: int, ttl: int): State {
    var k := LeaseKey(name);
    if HeldBy(s.db, s.now, k, token)
    then s.(db := Renewed(s.db, s.now, k, token, ttl), grants := Lasting(s.grants, Lease(name), token, s.now + ttl))
    else s
  }

  function OnRelease(stamps: Stamps, s: State, name: string, token: int): State {
    var k := LeaseKey(name);
    if HeldBy(s.db, s.now, k, token)
    then s.(db := Released(s.db, s.now, k, token), grants := Lasting(s.grants, Lease(name), token, s.now))
    else s
  }

  function Apply(stamps: Stamps, s: State, e: Event): State {
    match e
    case Tick(to) => if to > s.now then s.(now := to) else s
    case Acquire(key, ttl) => OnAcquire(stamps, s, key, ttl)
    case Renew(name, token, ttl) => OnRenew(stamps, s, name, token, ttl)
    case Release(name, token) => OnRelease(stamps, s, name, token)
  }

  function Run(stamps: Stamps, s: State, es: seq<Event>): State
    decreases |es|
  {
    if es == [] then s else Run(stamps, Apply(stamps, s, es[0]), es[1..])
  }

  // ----- the invariant -----

  function FenceOf(stamps: Stamps, k: JobKey): string {
    FenceKey(Text(stamps, k))
  }

  /** A counter, once made, stays, and has passed every token drawn from it. */
  predicate Counted(stamps: Stamps, db: Db, g: Grant) {
    var f := FenceOf(stamps, g.key);
    f in db && db[f].expires.None? && 0 < g.token <= db[f].value
  }

  ghost predicate Fences(stamps: Stamps, db: Db) {
    forall k: JobKey :: FenceOf(stamps, k) in db ==>
      db[FenceOf(stamps, k)].expires.None? && db[FenceOf(stamps, k)].value >= 0
  }

  /** What its holder believes is true of the store. */
  predicate Believed(stamps: Stamps, s: State, g: Grant) {
    s.now < g.until ==> Text(stamps, g.key) in s.db && s.db[Text(stamps, g.key)] == Cell(g.token, Some(g.until))
  }

  /** Tokens drawn from one counter grow with every grant. */
  ghost predicate Growing(stamps: Stamps, gs: seq<Grant>) {
    forall i, j | 0 <= i < j < |gs| && FenceOf(stamps, gs[i].key) == FenceOf(stamps, gs[j].key) ::
      gs[i].token < gs[j].token
  }

  /** A key that was granted again no longer carries the older token. */
  ghost predicate Superseded(stamps: Stamps, s: State) {
    forall i, j | 0 <= i < j < |s.grants| && s.grants[i].key == s.grants[j].key
                  && Text(stamps, s.grants[j].key) in s.db ::
      s.db[Text(stamps, s.grants[j].key)].value != s.grants[i].token
  }

  ghost predicate Inv(stamps: Stamps, s: State) {
    && Fences(stamps, s.db)
    && (forall i | 0 <= i < |s.grants| :: Counted(stamps, s.db, s.grants[i]))
    && (forall i | 0 <= i < |s.grants| :: Believed(stamps, s, s.grants[i]))
    && Growing(stamps, s.grants) && Superseded(stamps, s)
  }
}
