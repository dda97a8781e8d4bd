/**
  What every step of the session protocol keeps: each session belongs to a login and ends
  within its lifetime, and a login has one holder.
 */
module SessionRuns {
  import opened Sessions

  // ----- the state of every run -----

  /** x is session id: its login is the one its lineage records, and it ends in time. */
  predicate SessionOk(c: Config, s: State, id: Id, x: Session) {
    && id in s.lineage && s.lineage[id] in s.login
    && AuthTimeOf(x) == s.login[s.lineage[id]] != ZERO
    && x.expiresAt <= AuthTimeOf(x) + Lifetime(c)
  }

  predicate CallOk(c: Config, s: State, call: Call) {
    match call
    case Loaded(id, x, at) => SessionOk(c, s, id, x) && at <= s.now && at <= x.expiresAt
    case Checking(id, x, at) => SessionOk(c, s, id, x) && at <= s.now && at <= x.expiresAt
    case Cleared(id, x) => SessionOk(c, s, id, x)
    case Rotating(id, x) => SessionOk(c, s, id, x)
    case Saving(_, id, x) => SessionOk(c, s, id, x)
    case Reused(_) => true
  }

  /** Every identifier ever issued belongs to a login. */
  predicate Named(s: State) {
    forall id | id in s.lineage :: s.lineage[id] in s.login
  }

  predicate Base(c: Config, s: State) {
    && s.now > ZERO
    && s.lineage.Keys == s.issued && s.login.Keys <= s.issued && Named(s)
    && (forall id | id in s.store :: SessionOk(c, s, id, s.store[id]))
    && (forall k | k in s.calls :: CallOk(c, s, s.calls[k]))
  }

  /** Nobody can rotate the session again. */
  predicate Gone(s: State, id: Id) {
    id in s.store ==> s.store[id].revoked
  }

  /** What carries a login on: an unrevoked session, or a call that has revoked the last
      one and not yet stored the next. */
  datatype Holder = InStore(id: Id) | InCall(k: Key)

  predicate Holds(s: State, h: Holder) {
    match h
    case InStore(id) => id in s.store && !s.store[id].revoked
    case InCall(k) => k in s.calls && (s.calls[k].Rotating? || s.calls[k].Saving?)
  }

  function SessionOf(s: State, h: Holder): Id
    requires Holds(s, h)
  {
    match h
    case InStore(id) => id
    case InCall(k) => s.calls[k].id
  }

  predicate SameLogin(s: State, h: Holder, j: Holder)
    requires Holds(s, h) && Holds(s, j)
  {
    && SessionOf(s, h) in s.lineage && SessionOf(s, j) in s.lineage
    && s.lineage[SessionOf(s, h)] == s.lineage[SessionOf(s, j)]
  }

  /** A login has at most one holder. */
  ghost predicate OneHolder(s: State) {
    forall h, j | Holds(s, h) && Holds(s, j) && SameLogin(s, h, j) :: h == j
  }

  predicate Succeeds(s: State, call: Call) {
    match call
    case Rotating(id, _) => Gone(s, id) && id !in s.successor
    case Saving(parent, id, x) =>
      && id !in s.store && id !in s.successor && id in s.lineage
      && (parent.Some? ==> && parent.value != id && Gone(s, parent.value) && parent.value !in s.successor
                           && parent.value in s.lineage && s.lineage[parent.value] == s.lineage[id])
    case _ => true
  }

  ghost predicate Single(s: State) {
    && OneHolder(s)
    && (forall k | k in s.calls :: Succeeds(s, s.calls[k]))
    && (forall id | id in s.successor :: id in s.issued && Gone(s, id))
  }

  /** Any stored sessions, each its own login, and nothing under way. */
  predicate Initial(c: Config, s: State) {
    && s.now > ZERO && s.calls == map[] && s.successor == map[]
    && s.issued == s.store.Keys
    && s.lineage == (map id | id in s.store :: id)
    && s.login == (map id | id in s.store :: AuthTimeOf(s.store[id]))
    && forall id | id in s.store ::
         AuthTimeOf(s.store[id]) != ZERO && s.store[id].expiresAt <= AuthTimeOf(s.store[id]) + Lifetime(c)
  }

  lemma {:induction false} InitialOk(c: Config, s: State)
    requires Initial(c, s)
    ensures Base(c, s) && Single(s)
  {
  }

  lemma {:induction false} SessionOkKept(c: Config, s: State, e: Event, id: Id, x: Session)
    requires Base(c, s) && SessionOk(c, s, id, x)
    ensures SessionOk(c, Apply(c, s, e), id, x)
  {
    hide CallOk, Named, Refreshable, Live, PassesCutoff, Expiry;
  }

  lemma {:induction false} BaseParts(c: Config, s: State, k: Key)
    requires Base(c, s)
    ensures s.now > ZERO && s.lineage.Keys == s.issued && s.login.Keys <= s.issued
    ensures k in s.calls ==> CallOk(c, s, s.calls[k])
  {
    hide Named;
  }

  lemma {:induction false} BaseStored(c: Config, s: State, id: Id)
    requires Base(c, s)
    ensures id in s.store ==> SessionOk(c, s, id, s.store[id]) && SessionOk(c, s, id, s.store[id].(revoked := true))
  {
    hide Named;
  }

  lemma {:induction false} BaseNamed(c: Config, s: State, id: Id)
    requires Base(c, s)
    ensures id in s.lineage ==> s.lineage[id] in s.login && s.lineage[id] in s.issued
  {
  }

  lemma {:induction false} NamedByEach(s: State)
    requires forall id | id in s.lineage :: s.lineage[id] in s.login
    ensures Named(s)
  {
  }

  /** History is only added to. */
  lemma {:induction false} HistoryKept(c: Config, s: State, e: Event, id: Id)
    requires s.lineage.Keys == s.issued && id in s.lineage
    ensures id in Apply(c, s, e).lineage && Apply(c, s, e).lineage[id] == s.lineage[id]
  {
    hide Refreshable, Live, PassesCutoff, Expiry;
  }

  lemma {:induction false} LoginKept(c: Config, s: State, e: Event, id: Id)
    requires s.login.Keys <= s.issued && id in s.login
    ensures id in Apply(c, s, e).login && Apply(c, s, e).login[id] == s.login[id]
  {
    hide Refreshable, Live, PassesCutoff, Expiry, LoginTime;
  }

  /** Only logins and reissues name a session. */
  lemma {:induction false} NamedBy(c: Config, s: State, e: Event, id: Id)
    requires id in Apply(c, s, e).lineage && id !in s.lineage
    ensures e.Login? || e.Issue?
  {
    hide Refreshable, Live, PassesCutoff, Expiry, LoginTime;
  }

  lemma {:induction false} NamedKept(c: Config, s: State, e: Event, id: Id)
    requires Base(c, s) && id in Apply(c, s, e).lineage
    ensures Apply(c, s, e).lineage[id] in Apply(c, s, e).login
  {
    hide Base, Apply;
    BaseParts(c, s, 0);
    if id in s.lineage {
      BaseNamed(c, s, id);
      HistoryKept(c, s, e, id);
      LoginKept(c, s, e, s.lineage[id]);
    } else {
      NewlyNamed(c, s, e, id);
    }
  }

  lemma {:induction false} NewlyNamed(c: Config, s: State, e: Event, id: Id)
    requires Base(c, s) && id in Apply(c, s, e).lineage && id !in s.lineage
    ensures Apply(c, s, e).lineage[id] in Apply(c, s, e).login
  {
    hide Base;
    NamedBy(c, s, e, id);
    if e.Issue? && e.k in s.calls && s.calls[e.k].Rotating? {
      BaseNamed(c, s, s.calls[e.k].id);
    }
  }

  lemma {:induction false} StoredOkKept(c: Config, s: State, e: Event, id: Id)
    requires Base(c, s) && id in Apply(c, s, e).store
    ensures SessionOk(c, Apply(c, s, e), id, Apply(c, s, e).store[id])
  {
    hide Refreshable, Live, PassesCutoff, Expiry, SessionOk, Base;
    if id in s.store {
      BaseStored(c, s, id);
      SessionOkKept(c, s, e, id, s.store[id]);
      SessionOkKept(c, s, e, id, s.store[id].(revoked := true));
    }
    if e.Save? && e.k in s.calls && s.calls[e.k].Saving? {
      BaseParts(c, s, e.k);
      SessionOkKept(c, s, e, s.calls[e.k].id, s.calls[e.k].s);
    }
  }

  lemma {:induction false} FrameKept(c: Config, s: State, e: Event)
    requires Base(c, s)
    ensures var t := Apply(c, s, e); t.now >= s.now > ZERO && t.lineage.Keys == t.issued && t.login.Keys <= t.issued
  {
    hide Base, Refreshable, Live, PassesCutoff, Expiry;
    BaseParts(c, s, 0);
  }

  /** The events that start a call or move it on. */
  predicate Moves(e: Event, k: Key) {
    (e.Login? || e.Present? || e.Validate? || e.ReadCutoff? || e.Rotate? || e.Issue?) && e.k == k
  }

  lemma {:induction false} ReadsAnother(c: Config, s: State, e: Event, k: Key)
    requires (e.Present? || e.Validate? || e.ReadCutoff?) && e.k != k && k in Apply(c, s, e).calls
    ensures k in s.calls && Apply(c, s, e).calls[k] == s.calls[k]
  {
    hide Refreshable, Live, PassesCutoff, OnLogin, OnRotate, OnIssue, OnSave, OnReuse;
  }

  lemma {:induction false} MovesAnother(c: Config, s: State, e: Event, k: Key)
    requires (e.Login? || e.Rotate? || e.Issue?) && e.k != k && k in Apply(c, s, e).calls
    ensures k in s.calls && Apply(c, s, e).calls[k] == s.calls[k]
  {
    hide Expiry, LoginTime, Issued, Revoke, OnPresent, OnReadCutoff, OnSave, OnReuse, Live;
  }

  lemma {:induction false} MovesNone(c: Config, s: State, e: Event, k: Key)
    requires !(e.Login? || e.Present? || e.Validate? || e.ReadCutoff? || e.Rotate? || e.Issue?)
    requires k in Apply(c, s, e).calls
    ensures k in s.calls && Apply(c, s, e).calls[k] == s.calls[k]
  {
    hide Refreshable, Live, PassesCutoff, Expiry, LoginTime, Issued, Revoke, At;
  }

  lemma {:induction false} NotMoved(c: Config, s: State, e: Event, k: Key)
    requires !Moves(e, k) && k in Apply(c, s, e).calls
    ensures k in s.calls && Apply(c, s, e).calls[k] == s.calls[k]
  {
    hide Apply;
    if e.Login? || e.Rotate? || e.Issue? {
      MovesAnother(c, s, e, k);
    } else if e.Present? || e.Validate? || e.ReadCutoff? {
      ReadsAnother(c, s, e, k);
    } else {
      MovesNone(c, s, e, k);
    }
  }

  lemma {:induction false} StartedOk(c: Config, s: State, e: Event, k: Key)
    requires Base(c, s) && k !in s.calls && k in Apply(c, s, e).calls && Moves(e, k)
    ensures CallOk(c, Apply(c, s, e), Apply(c, s, e).calls[k])
  {
    hide Base;
    BaseParts(c, s, k);
    if e.Present? || e.Validate? {
      BaseStored(c, s, e.id);
    }
  }

  lemma {:induction false} MovedOk(c: Config, s: State, e: Event, k: Key)
    requires Base(c, s) && k in s.calls && k in Apply(c, s, e).calls && Moves(e, k)
    ensures CallOk(c, Apply(c, s, e), Apply(c, s, e).calls[k])
  {
    hide Base;
    BaseParts(c, s, k);
  }

  lemma {:induction false} StillOk(c: Config, s: State, e: Event, k: Key)
    requires Base(c, s) && k in s.calls && k in Apply(c, s, e).calls && Apply(c, s, e).calls[k] == s.calls[k]
    ensures CallOk(c, Apply(c, s, e), s.calls[k])
  {
    hide Apply, SessionOk, Base;
    BaseParts(c, s, k);
    FrameKept(c, s, e);
    if !s.calls[k].Reused? {
      SessionOkKept(c, s, e, s.calls[k].id, s.calls[k].s);
    }
  }

  lemma {:induction false} CallOkKept(c: Config, s: State, e: Event, k: Key)
    requires Base(c, s) && k in Apply(c, s, e).calls
    ensures CallOk(c, Apply(c, s, e), Apply(c, s, e).calls[k])
  {
    hide Apply, Base, CallOk;
    if !Moves(e, k) {
      NotMoved(c, s, e, k);
      StillOk(c, s, e, k);
    } else if k in s.calls {
      MovedOk(c, s, e, k);
    } else {
      StartedOk(c, s, e, k);
    }
  }

  lemma {:induction false} BaseKept(c: Config, s: State, e: Event)
    requires Base(c, s)
    ensures Base(c, Apply(c, s, e))
  {
    hide CallOk, SessionOk, Named, Apply;
    FrameKept(c, s, e);
    forall id | id in Apply(c, s, e).lineage
      ensures Apply(c, s, e).lineage[id] in Apply(c, s, e).login
    {
      NamedKept(c, s, e, id);
    }
    NamedByEach(Apply(c, s, e));
    forall id | id in Apply(c, s, e).store
      ensures SessionOk(c, Apply(c, s, e), id, Apply(c, s, e).store[id])
    {
      StoredOkKept(c, s, e, id);
    }
    forall k | k in Apply(c, s, e).calls
      ensures CallOk(c, Apply(c, s, e), Apply(c, s, e).calls[k])
    {
      CallOkKept(c, s, e, k);
    }
  }

  // ----- one holder per login -----

  /** The event starts a login. */
  predicate Starts(c: Config, s: State, e: Event) {
    e.Login? && e.id !in s.issued && e.id in Apply(c, s, e).issued
  }

  /** The holder, before the event, that h goes on from. */
  function Prior(s: State, e: Event, h: Holder): Holder {
    match e
    case Rotate(k) => if h == InCall(k) && k in s.calls && s.calls[k].Cleared? then InStore(s.calls[k].id) else h
    case Save(k) => if k in s.calls && s.calls[k].Saving? && h == InStore(s.calls[k].id) then InCall(k) else h
    case _ => h
  }

  /** h goes on, with its login, from its prior. */
  predicate GoesOn(c: Config, s: State, e: Event, h: Holder)
    requires Holds(Apply(c, s, e), h)
  {
    var t := Apply(c, s, e);
    && Holds(s, Prior(s, e, h))
    && SessionOf(s, Prior(s, e, h)) in s.lineage && SessionOf(t, h) in t.lineage
    && t.lineage[SessionOf(t, h)] == s.lineage[SessionOf(s, Prior(s, e, h))]
  }

  lemma {:induction false} StoredGoesOn(c: Config, s: State, e: Event, id: Id)
    requires c.atomic && Base(c, s) && Holds(Apply(c, s, e), InStore(id))
    ensures GoesOn(c, s, e, InStore(id))
  {
    hide Refreshable, Live, PassesCutoff, Expiry, Lifetime, LoginTime, AuthTimeOf, RevokeAll, Base;
    BaseStored(c, s, id);
    BaseParts(c, s, 0);
    if e.Save? {
      BaseParts(c, s, e.k);
    }
  }

  lemma {:induction false} CallStays(c: Config, s: State, e: Event, k: Key)
    requires Holds(Apply(c, s, e), InCall(k)) && !(Starts(c, s, e) && k == e.k)
    requires !((e.Rotate? || e.Issue?) && e.k == k)
    ensures k in s.calls && Apply(c, s, e).calls[k] == s.calls[k] && Prior(s, e, InCall(k)) == InCall(k)
  {
    hide Refreshable, Live, PassesCutoff, Expiry, LoginTime;
  }

  lemma {:induction false} CallGoesOn(c: Config, s: State, e: Event, k: Key)
    requires c.atomic && Base(c, s) && Holds(Apply(c, s, e), InCall(k))
    requires !(Starts(c, s, e) && k == e.k)
    ensures GoesOn(c, s, e, InCall(k))
  {
    hide Base;
    BaseParts(c, s, k);
    if (e.Rotate? || e.Issue?) && e.k == k {
    } else {
      CallStaysGoesOn(c, s, e, k);
    }
  }

  lemma {:induction false} CallStaysGoesOn(c: Config, s: State, e: Event, k: Key)
    requires Base(c, s) && Holds(Apply(c, s, e), InCall(k)) && !(Starts(c, s, e) && k == e.k)
    requires !((e.Rotate? || e.Issue?) && e.k == k)
    ensures GoesOn(c, s, e, InCall(k))
  {
    hide Apply, Base, Prior, Starts;
    BaseParts(c, s, k);
    CallStays(c, s, e, k);
    HistoryKept(c, s, e, s.calls[k].id);
  }

  lemma {:induction false} PriorHolds(c: Config, s: State, e: Event, h: Holder)
    requires c.atomic && Base(c, s) && Holds(Apply(c, s, e), h)
    requires !(Starts(c, s, e) && h == InCall(e.k))
    ensures GoesOn(c, s, e, h)
  {
    hide Apply, Base, GoesOn;
    match h
    case InCall(k) => CallGoesOn(c, s, e, k);
    case InStore(id) => StoredGoesOn(c, s, e, id);
  }

  /** Two holders never go on from the same one. */
  lemma {:induction false} PriorApart(c: Config, s: State, e: Event, h: Holder, j: Holder)
    requires c.atomic && Base(c, s) && Single(s) && Holds(Apply(c, s, e), h) && Holds(Apply(c, s, e), j)
    requires Prior(s, e, h) == Prior(s, e, j)
    ensures h == j
  {
    hide Refreshable, Live, PassesCutoff, Expiry, Lifetime, LoginTime, AuthTimeOf, RevokeAll, Base, Single;
  }

  lemma {:induction false} OneHolderKept(c: Config, s: State, e: Event, h: Holder, j: Holder)
    requires c.atomic && Base(c, s) && Single(s) && Holds(Apply(c, s, e), h) && Holds(Apply(c, s, e), j)
    requires SameLogin(Apply(c, s, e), h, j)
    ensures h == j
  {
    hide Apply, Base, Succeeds, Prior;
    if Starts(c, s, e) && (h == InCall(e.k) || j == InCall(e.k)) {
      NewLogin(c, s, e);
      if h != InCall(e.k) {
        PriorHolds(c, s, e, h);
        BaseNamed(c, s, SessionOf(s, Prior(s, e, h)));
      }
      if j != InCall(e.k) {
        PriorHolds(c, s, e, j);
        BaseNamed(c, s, SessionOf(s, Prior(s, e, j)));
      }
    } else {
      PriorHolds(c, s, e, h);
      PriorHolds(c, s, e, j);
      PriorApart(c, s, e, h, j);
    }
  }

  lemma {:induction false} NewLogin(c: Config, s: State, e: Event)
    requires Starts(c, s, e)
    ensures var t := Apply(c, s, e); Holds(t, InCall(e.k)) && SessionOf(t, InCall(e.k)) == e.id
                                     && e.id in t.lineage && t.lineage[e.id] == e.id
  {
  }

  /** A session that cannot be rotated stays so, unless it is being stored. */
  lemma {:induction false} GoneKept(c: Config, s: State, e: Event, id: Id)
    requires Gone(s, id)
    requires e.Save? && e.k in s.calls && s.calls[e.k].Saving? ==> s.calls[e.k].id != id
    ensures Gone(Apply(c, s, e), id)
  {
    hide Refreshable, Live, PassesCutoff, Expiry, LoginTime;
  }

  /** Only storing a session gives its parent a successor. */
  lemma {:induction false} SuccessorAt(c: Config, s: State, e: Event, id: Id)
    ensures id in s.successor ==> id in Apply(c, s, e).successor
    ensures id in Apply(c, s, e).successor && id !in s.successor
        ==> e.Save? && e.k in s.calls && s.calls[e.k].Saving? && s.calls[e.k].parent == Some(id)
    ensures id !in s.store && id in Apply(c, s, e).store
            ==> e.Save? && e.k in s.calls && s.calls[e.k].Saving? && s.calls[e.k].id == id
  {
    hide Refreshable, Live, PassesCutoff, Expiry, LoginTime;
  }

  lemma {:induction false} SingleParts(s: State, k: Key, id: Id)
    requires Single(s)
    ensures OneHolder(s)
    ensures k in s.calls ==> Succeeds(s, s.calls[k])
    ensures id in s.successor ==> id in s.issued && Gone(s, id)
  {
    hide OneHolder;
  }

  /** A call that stores a session of another call's login, or replaces one, is that call. */
  lemma {:induction false} SameCall(c: Config, s: State, k: Key, j: Key, a: Id)
    requires Base(c, s) && Single(s) && Holds(s, InCall(k)) && Holds(s, InCall(j)) && s.calls[j].Saving?
    requires a in s.lineage && s.calls[k].id in s.lineage && s.lineage[a] == s.lineage[s.calls[k].id]
    requires s.calls[j].id == a || s.calls[j].parent == Some(a)
    ensures k == j
  {
    hide Base;
    BaseParts(c, s, j);
    SingleParts(s, j, a);
    assert SameLogin(s, InCall(k), InCall(j));
  }

  /** A call that stays put still succeeds. */
  lemma {:induction false} StaysSucceeds(c: Config, s: State, e: Event, k: Key)
    requires Base(c, s) && Single(s) && Holds(s, InCall(k))
    requires k in Apply(c, s, e).calls && Apply(c, s, e).calls[k] == s.calls[k]
    ensures Succeeds(Apply(c, s, e), s.calls[k])
  {
    hide Apply, Base, Single, OneHolder;
    BaseParts(c, s, k);
    var id := s.calls[k].id;
    SingleParts(s, k, id);
    var others := e.Save? && e.k in s.calls && s.calls[e.k].Saving?;
    if others {
      SavedIsDone(c, s, e);
      if s.calls[e.k].id == id || s.calls[e.k].parent == Some(id) {
        SameCall(c, s, k, e.k, id);
      }
    }
    HistoryKept(c, s, e, id);
    SuccessorAt(c, s, e, id);
    if s.calls[k].Rotating? {
      GoneKept(c, s, e, id);
    } else if s.calls[k].parent.Some? {
      var parent := s.calls[k].parent.value;
      if others {
        if s.calls[e.k].id == parent || s.calls[e.k].parent == Some(parent) {
          SameCall(c, s, k, e.k, parent);
        }
      }
      HistoryKept(c, s, e, parent);
      SuccessorAt(c, s, e, parent);
      GoneKept(c, s, e, parent);
    }
  }

  lemma {:induction false} SavedIsDone(c: Config, s: State, e: Event)
    requires e.Save? && e.k in s.calls && s.calls[e.k].Saving?
    ensures e.k !in Apply(c, s, e).calls
  {
  }

  /** A call that has just revoked its session succeeds. */
  lemma {:induction false} RotatedSucceeds(c: Config, s: State, e: Event, k: Key)
    requires c.atomic && Single(s) && k in Apply(c, s, e).calls && e == Rotate(k)
    ensures Succeeds(Apply(c, s, e), Apply(c, s, e).calls[k])
  {
    hide Single, OneHolder;
    if k in s.calls && !s.calls[k].Reused? {
      SingleParts(s, k, s.calls[k].id);
    }
  }

  lemma {:induction false} NewSucceeds(c: Config, s: State, e: Event, k: Key)
    requires Base(c, s) && Single(s) && k in Apply(c, s, e).calls && (e.Login? || e.Issue?) && e.k == k
    ensures Succeeds(Apply(c, s, e), Apply(c, s, e).calls[k])
  {
    hide Base, Single, OneHolder, Expiry, LoginTime;
    BaseParts(c, s, k);
    SingleParts(s, k, e.id);
    BaseStored(c, s, e.id);
  }

  lemma {:induction false} SingleKept(c: Config, s: State, e: Event)
    requires c.atomic && Base(c, s) && Single(s)
    ensures Single(Apply(c, s, e))
  {
    hide Base, Single, Apply, Succeeds, Gone;
    var t := Apply(c, s, e);
    forall h, j | Holds(t, h) && Holds(t, j) && SameLogin(t, h, j)
      ensures h == j
    {
      OneHolderKept(c, s, e, h, j);
    }
    forall k | k in t.calls
      ensures Succeeds(t, t.calls[k])
    {
      CallSucceeds(c, s, e, k);
    }
    forall id | id in t.successor
      ensures id in t.issued && Gone(t, id)
    {
      SuccessorGone(c, s, e, id);
    }
    SingleByParts(t);
  }

  lemma {:induction false} CallSucceeds(c: Config, s: State, e: Event, k: Key)
    requires c.atomic && Base(c, s) && Single(s) && k in Apply(c, s, e).calls
    ensures Succeeds(Apply(c, s, e), Apply(c, s, e).calls[k])
  {
    hide Base, Single, Apply, Gone;
    if Holds(Apply(c, s, e), InCall(k)) {
      if (e.Login? || e.Issue?) && e.k == k {
        NewSucceeds(c, s, e, k);
      } else if e == Rotate(k) {
        RotatedSucceeds(c, s, e, k);
      } else {
        CallStays(c, s, e, k);
        StaysSucceeds(c, s, e, k);
      }
    }
  }

  lemma {:induction false} SuccessorGone(c: Config, s: State, e: Event, id: Id)
    requires Base(c, s) && Single(s) && id in Apply(c, s, e).successor
    ensures id in Apply(c, s, e).issued && Gone(Apply(c, s, e), id)
  {
    hide Base, Single, Apply, OneHolder;
    SuccessorAt(c, s, e, id);
    SingleParts(s, if e.Save? then e.k else 0, id);
    BaseParts(c, s, 0);
    FrameKept(c, s, e);
    HistoryKept(c, s, e, id);
    GoneKept(c, s, e, id);
  }

  lemma {:induction false} SingleByParts(s: State)
    requires OneHolder(s)
    requires forall k | k in s.calls :: Succeeds(s, s.calls[k])
    requires forall id | id in s.successor :: id in s.issued && Gone(s, id)
    ensures Single(s)
  {
  }
}
