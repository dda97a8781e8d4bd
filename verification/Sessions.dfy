/**
  The session protocol: logins, refresh with rotation, reuse detection, logout, the
  user-wide cut-off and validation, over a shared session store. A call that touches the
  store several times is split at those points, and any number of calls interleave: a run
  is any sequence of events.
 */
module Sessions {

  type Id = nat
  type User = nat
  type Time = int
  type Key = nat       // names a call in progress

  datatype Option<+T> = None | Some(value: T)

  /** ZERO is the zero time: an AuthTime that was never set. */
  const ZERO: Time := 0

  datatype Session = Session(user: User, tenant: nat, secret: nat, authTime: Time, createdAt: Time,
                             expiresAt: Time, revoked: bool)

  /** Lifetimes, how long the store keeps a cut-off, and whether it offers the atomic
      RevokeIfActive. */
  datatype Config = Config(refreshTTL: Time, maxLifetime: Time, cutoffTTL: Time, atomic: bool)

  // ----- lifetimes -----

  /** The absolute lifetime of a login. */
  function Lifetime(c: Config): Time {
    if c.maxLifetime <= 0 then c.refreshTTL else c.maxLifetime
  }

  function Expiry(c: Config, now: Time, authTime: Time): Time {
    if authTime + Lifetime(c) < now + c.refreshTTL then authTime + Lifetime(c) else now + c.refreshTTL
  }

  /** A session ends refreshTTL after it was created, and never later than maxLifetime after
      its login, or refreshTTL if there is no such maximum. */
  ghost function Ends(c: Config, created: Time, login: Time): Time {
    var last := login + if c.maxLifetime > 0 then c.maxLifetime else c.refreshTTL;
    if created + c.refreshTTL <= last then created + c.refreshTTL else last
  }

  /** When the login of a session was. */
  ghost function Began(s: Session): Time {
    if s.authTime != ZERO then s.authTime else s.createdAt
  }

  /** The original login; sessions stored before AuthTime existed fall back on creation. */
  function AuthTimeOf(s: Session): Time {
    if s.authTime == ZERO then s.createdAt else s.authTime
  }

  /** The login time of a new session: the caller may only move it back. */
  function LoginTime(now: Time, given: Time): Time {
    if given != ZERO && given < now then given else now
  }

  function Issued(c: Config, now: Time, authTime: Time, user: User, tenant: nat, secret: nat): Session {
    Session(user, tenant, secret, authTime, now, Expiry(c, now, authTime), false)
  }

  // ----- the store -----

  type Store = map<Id, Session>

  function Revoke(store: Store, id: Id): Store {
    if id in store then store[id := store[id].(revoked := true)] else store
  }

  function RevokeAll(store: Store, user: User): Store {
    map id | id in store :: if store[id].user == user then store[id].(revoked := true) else store[id]
  }

  /** What Get returns. */
  function Found(store: Store, withTTL: bool, id: Id, now: Time): Option<Session> {
    if id in store && (withTTL && now > store[id].expiresAt ==> store[id].revoked) then Some(store[id]) else None
  }

  /** Five minutes, in milliseconds. */
  const GRACE: Time := 300_000

  /** The in-memory store. */
  class Provider {
    var sessions: Store
    var revokedBefore: map<User, Time>
    const withTTL: bool

    constructor (withTTL: bool)
      ensures sessions == map[] && revokedBefore == map[] && this.withTTL == withTTL
    {
      sessions, revokedBefore := map[], map[];
      this.withTTL := withTTL;
    }

    method Save(id: Id, s: Session)
      modifies this`sessions
      ensures sessions == old(sessions)[id := s]
    {
      sessions := sessions[id := s];
    }

    /** With a TTL, a session found expired is dropped and not returned, unless it is revoked:
        a revoked one must stay readable so that its reuse is noticed. */
    method Get(id: Id, now: Time) returns (s: Option<Session>)
      modifies this`sessions
      ensures s == Found(old(sessions), withTTL, id, now)
      ensures sessions == if s.None? then old(sessions) - {id} else old(sessions)
    {
      if id !in sessions {
        return None;
      }
      var x := sessions[id];
      if withTTL && now > x.expiresAt && !x.revoked {
        sessions := sessions - {id};
        return None;
      }
      return Some(x);
    }

    /** Drops the sessions that expired more than five minutes ago. */
    method Gc(now: Time)
      modifies this`sessions
      ensures sessions == map id | id in old(sessions) && now <= old(sessions)[id].expiresAt + GRACE ::
              old(sessions)[id]
    {
      var todo := sessions.Keys;
      ghost var before := sessions;
      while todo != {}
        invariant todo <= sessions.Keys <= before.Keys
        invariant forall id | id in before :: id in sessions <==> id in todo || now <= before[id].expiresAt + GRACE
        invariant forall id | id in sessions :: sessions[id] == before[id]
        decreases todo
      {
        var id :| id in todo;
        if now > sessions[id].expiresAt + GRACE {
          sessions := sessions - {id};
        }
        todo := todo - {id};
      }
    }

    method RevokeOne(id: Id) returns (found: bool)
      modifies this`sessions
      ensures found == (id in old(sessions)) && sessions == Revoke(old(sessions), id)
    {
      found := id in sessions;
      if found {
        sessions := sessions[id := sessions[id].(revoked := true)];
      }
    }

    /** True exactly for the one caller that turns an active session into a revoked one. */
    method RevokeIfActive(id: Id) returns (revoked: bool)
      modifies this`sessions
      ensures revoked == (id in old(sessions) && !old(sessions)[id].revoked)
      ensures sessions == if revoked then Revoke(old(sessions), id) else old(sessions)
    {
      if id !in sessions {
        return false;
      }
      if sessions[id].revoked {
        return false;
      }
      sessions := sessions[id := sessions[id].(revoked := true)];
      return true;
    }

    /** The cut-off is recorded first, then every session of the user is revoked. */
    method RevokeAllForUser(user: User, now: Time)
      modifies this
      ensures revokedBefore == old(revokedBefore)[user := now]
      ensures sessions == RevokeAll(old(sessions), user)
    {
      revokedBefore := revokedBefore[user := now];
      var todo := sessions.Keys;
      ghost var before := sessions;
      while todo != {}
        invariant revokedBefore == old(revokedBefore)[user := now]
        invariant todo <= sessions.Keys == before.Keys
        invariant forall id | id in before ::
                    sessions[id]
                    == if id !in todo && before[id].user == user then before[id].(revoked := true) else before[id]
        decreases todo
      {
        var id :| id in todo;
        if sessions[id].user == user && !sessions[id].revoked {
          sessions := sessions[id := sessions[id].(revoked := true)];
        }
        todo := todo - {id};
      }
    }

    /** ZERO when no cut-off was recorded. */
    method RevokedBefore(user: User) returns (t: Time)
      ensures t == if user in revokedBefore then revokedBefore[user] else ZERO
    {
      t := if user in revokedBefore then revokedBefore[user] else ZERO;
    }
  }

  // ----- the protocol -----

  /** Where a call in progress stands between two accesses to the store. */
  datatype Call =
    | Loaded(id: Id, s: Session, at: Time)              // refresh: read and checked, cut-off not read yet
    | Cleared(id: Id, s: Session)                       // refresh: may be rotated
    | Rotating(id: Id, s: Session)                      // refresh: revoked, not replaced yet
    | Saving(parent: Option<Id>, id: Id, s: Session)    // a new session, not stored yet
    | Reused(user: User)                                // the token of a revoked session came back
    | Checking(id: Id, s: Session, at: Time)            // validation: read and checked, cut-off not read yet

  /** issued holds every identifier ever given out; lineage, login and successor are the
      history of the run: the login a session descends from, when that login was, and
      which session replaced it. */
  datatype State = State(now: Time, store: Store, cutoffs: map<User, Time>, calls: map<Key, Call>,
                         issued: set<Id>, lineage: map<Id, Id>, login: map<Id, Time>, successor: map<Id, Id>)

  datatype Event =
    | Tick(to: Time)
    | Login(k: Key, id: Id, user: User, tenant: nat, secret: nat, authTime: Time)
    | Present(k: Key, id: Id, secret: nat)              // RefreshToken reads the session
    | ReadCutoff(k: Key)
    | Rotate(k: Key)
    | Issue(k: Key, id: Id, secret: nat)
    | Save(k: Key)
    | CutOff(user: User)                                // RevokeAllForUser records its cut-off
    | ReuseCutOff(k: Key)                               // the same, after a reuse
    | Logout(id: Id)                                    // any revocation of one session
    | Forget(id: Id)                                    // the store drops a session
    | ForgetCutoff(user: User)                          // the store drops an old cut-off
    | Validate(k: Key, id: Id, user: User, tenant: nat) // ValidateToken reads the session
    | FinishValidate(k: Key)
    | Abort(k: Key)                                     // any other check of the call fails

  /** The session the presented token may rotate, read at s.now. */
  predicate Refreshable(c: Config, s: State, id: Id, secret: nat) {
    && id in s.store && s.store[id].secret == secret && !s.store[id].revoked
    && s.now <= s.store[id].expiresAt
    && Expiry(c, s.now, AuthTimeOf(s.store[id])) > s.now
  }

  /** The session belongs to the token's claims and is live, read at s.now. */
  predicate Live(s: State, id: Id, user: User, tenant: nat) {
    && id in s.store && s.store[id].user == user && s.store[id].tenant == tenant
    && !s.store[id].revoked && s.now <= s.store[id].expiresAt
  }

  /** checkUserCutoff: the login is after the recorded cut-off, if any. */
  predicate PassesCutoff(s: State, x: Session) {
    x.user in s.cutoffs && s.cutoffs[x.user] != ZERO ==> AuthTimeOf(x) > s.cutoffs[x.user]
  }

  function Without(s: State, k: Key): State {
    s.(calls := s.calls - {k})
  }

  function At(s: State, k: Key, call: Call): State {
    s.(calls := s.calls[k := call])
  }

  function OnLogin(c: Config, s: State, k: Key, id: Id, user: User, tenant: nat, secret: nat, authTime: Time): State {
    var t := LoginTime(s.now, authTime);
    if k in s.calls || id in s.issued || !(Expiry(c, s.now, t) > s.now || t == s.now) then s
    else At(s, k, Saving(None, id, Issued(c, s.now, t, user, tenant, secret)))
         .(issued := s.issued + {id}, lineage := s.lineage[id := id], login := s.login[id := t])
  }

  function OnPresent(c: Config, s: State, k: Key, id: Id, secret: nat): State {
    if k in s.calls then s
    else if Refreshable(c, s, id, secret) then At(s, k, Loaded(id, s.store[id], s.now))
    else if id in s.store && s.store[id].secret == secret && s.store[id].revoked then At(s, k, Reused(s.store[id].user))
    else s
  }

  function OnReadCutoff(s: State, k: Key): State {
    if k !in s.calls || !s.calls[k].Loaded? then s
    else if PassesCutoff(s, s.calls[k].s) then At(s, k, Cleared(s.calls[k].id, s.calls[k].s))
    else Without(s, k)
  }

  function OnRotate(c: Config, s: State, k: Key): State {
    if k !in s.calls || !s.calls[k].Cleared? then s
    else
      var id := s.calls[k].id;
      if id !in s.store || (c.atomic && s.store[id].revoked) then Without(s, k)
      else At(s, k, Rotating(id, s.calls[k].s)).(store := Revoke(s.store, id))
  }

  function OnIssue(c: Config, s: State, k: Key, id: Id, secret: nat): State {
    if k !in s.calls || !s.calls[k].Rotating? || id in s.issued || s.calls[k].id !in s.lineage then s
    else
      var x := s.calls[k].s;
      At(s, k, Saving(Some(s.calls[k].id), id, Issued(c, s.now, AuthTimeOf(x), x.user, x.tenant, secret)))
      .(issued := s.issued + {id}, lineage := s.lineage[id := s.lineage[s.calls[k].id]])
  }

  function OnSave(s: State, k: Key): State {
    if k !in s.calls || !s.calls[k].Saving? then s
    else
      var call := s.calls[k];
      Without(s, k).(store := s.store[call.id := call.s],
                     successor := if call.parent.Some? then s.successor[call.parent.value := call.id] else s.successor)
  }

  function OnReuse(s: State, k: Key): State {
    if k !in s.calls || !s.calls[k].Reused? then s
    else Without(s, k).(cutoffs := s.cutoffs[s.calls[k].user := s.now])
  }

  /** The state after one event; an event that cannot happen changes nothing. */
  function Apply(c: Config, s: State, e: Event): State {
    match e
    case Tick(to) => if to > s.now then s.(now := to) else s
    case Login(k, id, user, tenant, secret, authTime) => OnLogin(c, s, k, id, user, tenant, secret, authTime)
    case Present(k, id, secret) => OnPresent(c, s, k, id, secret)
    case ReadCutoff(k) => OnReadCutoff(s, k)
    case Rotate(k) => OnRotate(c, s, k)
    case Issue(k, id, secret) => OnIssue(c, s, k, id, secret)
    case Save(k) => OnSave(s, k)
    case CutOff(user) => s.(cutoffs := s.cutoffs[user := s.now])
    case ReuseCutOff(k) => OnReuse(s, k)
    case Logout(id) => s.(store := Revoke(s.store, id))
    case Forget(id) => s.(store := s.store - {id})
    case ForgetCutoff(user) =>
      if user in s.cutoffs && s.now > s.cutoffs[user] + c.cutoffTTL then s.(cutoffs := s.cutoffs - {user}) else s
    case Validate(k, id, user, tenant) =>
      if k !in s.calls && Live(s, id, user, tenant) then At(s, k, Checking(id, s.store[id], s.now)) else s
    case FinishValidate(k) => if k in s.calls && s.calls[k].Checking? then Without(s, k) else s
    case Abort(k) => Without(s, k)
  }

  function Run(c: Config, s: State, es: seq<Event>): State
    decreases |es|
  {
    if es == [] then s else Run(c, Apply(c, s, es[0]), es[1..])
  }

  /** The event accepts session x: the cut-off, read now, lets it through. */
  predicate Accepts(s: State, e: Event, x: Session, at: Time) {
    match e
    case ReadCutoff(k) =>
      k in s.calls && s.calls[k].Loaded? && s.calls[k].s == x && s.calls[k].at == at && PassesCutoff(s, x)
    case FinishValidate(k) =>
      k in s.calls && s.calls[k].Checking? && s.calls[k].s == x && s.calls[k].at == at && PassesCutoff(s, x)
    case _ => false
  }

  // ----- one refresh on its own -----

  datatype Checks = Granted | Inactive | Refused   // what re-checking the user and the tenant said
  datatype Refreshed =
    Renewed(id: Id, s: Session) | NotFound | TokenInvalid | ReuseDetected | Expired | CutOffReached | Denied

  /** The outcome of a refresh read at now and reissued at later. */
  function RefreshResult(c: Config, found: Option<Session>, cutoff: Time, secret: nat, now: Time,
                         checks: Checks, later: Time, newId: Id, newSecret: nat): Refreshed
  {
    match found
    case None => NotFound
    case Some(x) =>
      if x.secret != secret then TokenInvalid
      else if x.revoked then ReuseDetected
      else if now > x.expiresAt || Expiry(c, now, AuthTimeOf(x)) <= now then Expired
      else if cutoff != ZERO && AuthTimeOf(x) <= cutoff then CutOffReached
      else if !checks.Granted? then Denied
      else Renewed(newId, Issued(c, later, AuthTimeOf(x), x.user, x.tenant, newSecret))
  }

  function CutoffOf(cutoffs: map<User, Time>, found: Option<Session>): Time {
    if found.Some? && found.value.user in cutoffs then cutoffs[found.value.user] else ZERO
  }

  /** The sessions after a refresh with that outcome. */
  function StoreAfter(store: Store, id: Id, checks: Checks, r: Refreshed): Store {
    match r
    case Renewed(newId, x) => Revoke(store, id)[newId := x]
    case NotFound => store - {id}
    case ReuseDetected => if id in store then RevokeAll(store, store[id].user) else store
    case Denied => if checks.Inactive? then Revoke(store, id) else store
    case _ => store
  }

  /** RefreshToken with nothing running beside it. */
  method RefreshToken(c: Config, p: Provider, id: Id, secret: nat, now: Time, checks: Checks, later: Time,
                      newId: Id, newSecret: nat) returns (r: Refreshed)
    modifies p
    ensures var found := Found(old(p.sessions), p.withTTL, id, now);
            r == RefreshResult(c, found, CutoffOf(old(p.revokedBefore), found), secret, now, checks, later, newId,
                               newSecret)
    ensures p.sessions == StoreAfter(old(p.sessions), id, checks, r)
    ensures p.revokedBefore == if r.ReuseDetected? then old(p.revokedBefore)[old(p.sessions)[id].user := now]
                               else old(p.revokedBefore)
    // the first check that fails decides
    ensures r.NotFound? <==> || id !in old(p.sessions)
                             || (p.withTTL && now > old(p.sessions)[id].expiresAt && !old(p.sessions)[id].revoked)
    ensures !r.NotFound? ==>
              var x := old(p.sessions)[id];
              && (r.TokenInvalid? <==> x.secret != secret)
              && (r.ReuseDetected? <==> x.secret == secret && x.revoked)
              && (r.Expired? <==> x.secret == secret && !x.revoked
                                  && (now > x.expiresAt || Ends(c, now, Began(x)) <= now))
              && (r.CutOffReached? <==> x.secret == secret && !x.revoked && !r.Expired?
                                        && x.user in old(p.revokedBefore) && old(p.revokedBefore)[x.user] != ZERO
                                        && Began(x) <= old(p.revokedBefore)[x.user])
              && (r.Denied? ==> !checks.Granted?) && (r.Renewed? ==> checks.Granted?)
    // a new session belongs to the user and tenant of the one it replaces
    ensures r.Renewed? ==>
              var x := old(p.sessions)[id];
              && r == Renewed(newId,
                   Session(x.user, x.tenant, newSecret, Began(x), later, Ends(c, later, Began(x)), false))
              && p.sessions == old(p.sessions)[id := x.(revoked := true)][newId := r.s]
    ensures r.ReuseDetected? ==>
              && p.sessions.Keys == old(p.sessions).Keys
              && forall i | i in p.sessions ::
                   p.sessions[i] == if old(p.sessions)[i].user == old(p.sessions)[id].user
                                    then old(p.sessions)[i].(revoked := true) else old(p.sessions)[i]
    ensures r.Denied? && checks.Inactive? ==>
              p.sessions == old(p.sessions)[id := old(p.sessions)[id].(revoked := true)]
    ensures r.TokenInvalid? || r.Expired? || r.CutOffReached? || (r.Denied? && !checks.Inactive?) ==>
              p.sessions == old(p.sessions)
  {
    var existing := p.Get(id, now);
    if existing.None? {
      return NotFound;
    }
    var x := existing.value;
    if x.secret != secret {
      return TokenInvalid;
    }
    if x.revoked {
      p.RevokeAllForUser(x.user, now);
      return ReuseDetected;
    }
    if now > x.expiresAt || !(Expiry(c, now, AuthTimeOf(x)) > now) {
      return Expired;
    }
    var cutoff := p.RevokedBefore(x.user);
    if cutoff != ZERO && !(AuthTimeOf(x) > cutoff) {
      return CutOffReached;
    }
    if checks.Inactive? {
      var _ := p.RevokeOne(id);
      return Denied;
    }
    if checks.Refused? {
      return Denied;
    }
    var _ := p.RevokeIfActive(id);   // nothing ran in between, so this call revokes it
    var session := Issued(c, later, AuthTimeOf(x), x.user, x.tenant, newSecret);
    p.Save(newId, session);
    return Renewed(newId, session);
  }

  // ----- opening and checking a session on its own -----

  /** The end of SelectTenant, once access is granted: the session is opened and stored,
      unless the login time given by the caller leaves no lifetime. */
  method OpenSession(c: Config, p: Provider, id: Id, user: User, tenant: nat, secret: nat, given: Time, now: Time)
    returns (s: Option<Session>)
    modifies p`sessions
    ensures s.None? <==> LoginTime(now, given) < now && Expiry(c, now, given) <= now
    ensures s.Some? ==> s.value == Issued(c, now, LoginTime(now, given), user, tenant, secret)
    ensures var login := if given != ZERO && given < now then given else now;
            && (s.None? <==> login < now && Ends(c, now, login) <= now)
            && (s.Some? ==> s.value == Session(user, tenant, secret, login, now, Ends(c, now, login), false))
    ensures p.sessions == if s.Some? then old(p.sessions)[id := s.value] else old(p.sessions)
  {
    var authTime := now;
    if given != ZERO && given < now {
      authTime := given;
      if !(Expiry(c, now, authTime) > now) {
        return None;
      }
    }
    var session := Issued(c, now, authTime, user, tenant, secret);
    p.Save(id, session);
    return Some(session);
  }

  datatype Verdict = Valid | Missing | Mismatch | WasRevoked | WasExpired | WasCutOff

  /** The session behind an access token: the first check that fails decides. */
  method CheckSession(p: Provider, id: Id, user: User, tenant: nat, now: Time) returns (v: Verdict)
    modifies p`sessions
    ensures v.Valid? <==> && id in old(p.sessions)
                          && old(p.sessions)[id].user == user && old(p.sessions)[id].tenant == tenant
                          && !old(p.sessions)[id].revoked && now <= old(p.sessions)[id].expiresAt
                          && (user in p.revokedBefore && p.revokedBefore[user] != ZERO
                              ==> AuthTimeOf(old(p.sessions)[id]) > p.revokedBefore[user])
    ensures v.Missing? <==> Found(old(p.sessions), p.withTTL, id, now).None?
    ensures v.Mismatch? <==> && !v.Missing?
                             && (old(p.sessions)[id].user != user || old(p.sessions)[id].tenant != tenant)
    ensures v.WasRevoked? <==> !v.Missing? && !v.Mismatch? && old(p.sessions)[id].revoked
    ensures v.WasExpired? <==> !v.Missing? && !v.Mismatch? && !v.WasRevoked? && now > old(p.sessions)[id].expiresAt
    ensures p.sessions == if v.Missing? then old(p.sessions) - {id} else old(p.sessions)
  {
    var found := p.Get(id, now);
    if found.None? {
      return Missing;
    }
    var s := found.value;
    if s.user != user || s.tenant != tenant {
      return Mismatch;
    }
    if s.revoked {
      return WasRevoked;
    }
    if now > s.expiresAt {
      return WasExpired;
    }
    var cutoff := p.RevokedBefore(s.user);
    if cutoff != ZERO && !(AuthTimeOf(s) > cutoff) {
      return WasCutOff;
    }
    return Valid;
  }
}
