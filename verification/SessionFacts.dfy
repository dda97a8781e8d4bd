/**
  What is in a session. The history of a run notes, for every identifier, what its login or
  its predecessor gave it; in every run each session, stored or in a call's hands, is as noted.
 */
module SessionFacts {
  import opened Sessions
  import opened SessionRuns
  import opened SessionLaws

  // ----- the history -----

  datatype Fact = Fact(user: User, tenant: nat, secret: nat, login: Time, created: Time, ends: Time)

  type History = map<Id, Fact>

  /** The event gives out an identifier. */
  predicate Names(c: Config, s: State, e: Event) {
    (e.Login? || e.Issue?) && e.id !in s.issued && e.id in Apply(c, s, e).issued
  }

  /** What the event says of the session it names: a login its own user, tenant and secret
      and the time given if that is in the past; a refresh the user, tenant and login of the
      session it replaces, and a new secret. */
  ghost function Noted(c: Config, s: State, h: History, e: Event): History {
    if !Names(c, s, e) then h
    else match e
      case Login(_, id, user, tenant, secret, given) =>
        var login := if given != ZERO && given < s.now then given else s.now;
        h[id := Fact(user, tenant, secret, login, s.now, Ends(c, s.now, login))]
      case Issue(k, id, secret) =>
        if k in s.calls && s.calls[k].Rotating? && s.calls[k].id in h then
          var f := h[s.calls[k].id];
          h[id := Fact(f.user, f.tenant, secret, f.login, s.now, Ends(c, s.now, f.login))]
        else h
      case _ => h
  }

  ghost function Told(c: Config, s: State, h: History, es: seq<Event>): History
    decreases |es|
  {
    if es == [] then h else Told(c, Apply(c, s, es[0]), Noted(c, s, h, es[0]), es[1..])
  }

  /** Of the sessions that were there before the run. */
  ghost function Before(s: State): History {
    map id | id in s.store :: FactOf(s.store[id])
  }

  ghost function FactOf(x: Session): Fact {
    Fact(x.user, x.tenant, x.secret, Began(x), x.createdAt, x.expiresAt)
  }

  // ----- every session is as noted -----

  ghost predicate CallTold(h: History, call: Call) {
    !call.Reused? ==> call.id in h && FactOf(call.s) == h[call.id]
  }

  ghost predicate AsNoted(s: State, h: History) {
    && h.Keys == s.issued
    && (forall id | id in s.store :: id in h && FactOf(s.store[id]) == h[id])
    && (forall k | k in s.calls :: CallTold(h, s.calls[k]))
  }

  /** A session and its login have the same user, tenant and login time. */
  predicate Inherits(h: History, a: Id, b: Id) {
    a in h && b in h && h[a].user == h[b].user && h[a].tenant == h[b].tenant && h[a].login == h[b].login
  }

  predicate AllInherit(s: State, h: History) {
    forall id | id in s.lineage :: Inherits(h, id, s.lineage[id])
  }

  lemma {:induction false} EndsIs(c: Config, created: Time, login: Time)
    ensures Expiry(c, created, login) == Ends(c, created, login)
  {
  }

  lemma {:induction false} IssuedIs(c: Config, now: Time, login: Time, user: User, tenant: nat, secret: nat)
    requires login != ZERO
    ensures FactOf(Issued(c, now, login, user, tenant, secret))
         == Fact(user, tenant, secret, login, now, Ends(c, now, login))
  {
    EndsIs(c, now, login);
  }

  lemma {:induction false} NotedParts(c: Config, s: State, h: History, k: Key, id: Id)
    requires AsNoted(s, h)
    ensures h.Keys == s.issued
    ensures k in s.calls ==> CallTold(h, s.calls[k])
    ensures id in s.store ==> id in h && FactOf(s.store[id]) == h[id]
  {
  }

  lemma {:induction false} NotedGrows(c: Config, s: State, h: History, e: Event, id: Id)
    requires h.Keys == s.issued && id in h
    ensures id in Noted(c, s, h, e) && Noted(c, s, h, e)[id] == h[id]
  {
    hide Apply;
  }

  /** The session of a call that was in progress. */
  lemma {:induction false} KeysKept(c: Config, s: State, h: History, e: Event)
    requires Base(c, s) && AsNoted(s, h)
    ensures Noted(c, s, h, e).Keys == Apply(c, s, e).issued
  {
    hide Base, AsNoted, Refreshable, Live, PassesCutoff, Expiry, LoginTime, Ends, CallTold;
    NotedParts(c, s, h, 0, 0);
    if e.Issue? && e.k in s.calls {
      NotedParts(c, s, h, e.k, 0);
      assert s.calls[e.k].Rotating? ==> s.calls[e.k].id in h by { InHand(h, s.calls[e.k]); }
    }
  }

  lemma {:induction false} InHand(h: History, call: Call)
    requires CallTold(h, call)
    ensures !call.Reused? ==> call.id in h
  {
  }

  lemma {:induction false} StoredTold(c: Config, s: State, h: History, e: Event, id: Id)
    requires Base(c, s) && AsNoted(s, h) && id in Apply(c, s, e).store
    ensures id in Noted(c, s, h, e) && FactOf(Apply(c, s, e).store[id]) == Noted(c, s, h, e)[id]
  {
    hide Base, AsNoted, Refreshable, Live, PassesCutoff, Expiry, LoginTime, Noted, Issued;
    NotedParts(c, s, h, 0, id);
    if e.Save? && e.k in s.calls && s.calls[e.k].Saving? && s.calls[e.k].id == id {
      NotedParts(c, s, h, e.k, id);
      NotedGrows(c, s, h, e, id);
    } else {
      assert id in s.store;
      NotedGrows(c, s, h, e, id);
    }
  }

  lemma {:induction false} CallStaysTold(c: Config, s: State, h: History, e: Event, k: Key)
    requires AsNoted(s, h) && k in s.calls
    ensures CallTold(Noted(c, s, h, e), s.calls[k])
  {
    hide Noted, AsNoted, FactOf;
    NotedParts(c, s, h, k, 0);
    if !s.calls[k].Reused? {
      NotedGrows(c, s, h, e, s.calls[k].id);
    }
  }

  lemma {:induction false} LoginTold(c: Config, s: State, h: History, e: Event)
    requires Base(c, s) && AsNoted(s, h) && e.Login? && e.k !in s.calls && e.k in Apply(c, s, e).calls
    ensures CallTold(Noted(c, s, h, e), Apply(c, s, e).calls[e.k])
  {
    hide Base, AsNoted, Expiry, Issued, Ends, FactOf;
    BaseParts(c, s, 0);
    IssuedIs(c, s.now, LoginTime(s.now, e.authTime), e.user, e.tenant, e.secret);
  }

  lemma {:induction false} IssueTold(c: Config, s: State, h: History, e: Event)
    requires Base(c, s) && AsNoted(s, h) && e.Issue? && e.k in s.calls
    ensures e.k in Apply(c, s, e).calls && CallTold(Noted(c, s, h, e), Apply(c, s, e).calls[e.k])
  {
    hide Base, AsNoted, Issued, Ends;
    NotedParts(c, s, h, e.k, 0);
    BaseParts(c, s, e.k);
    if s.calls[e.k].Rotating? {
      var x := s.calls[e.k].s;
      IssuedIs(c, s.now, AuthTimeOf(x), x.user, x.tenant, e.secret);
    }
  }

  lemma {:induction false} ReadTold(c: Config, s: State, h: History, e: Event)
    requires AsNoted(s, h) && (e.Present? || e.Validate?) && e.k in Apply(c, s, e).calls
    ensures CallTold(h, Apply(c, s, e).calls[e.k])
  {
    hide AsNoted, Expiry, FactOf;
    NotedParts(c, s, h, e.k, e.id);
  }

  lemma {:induction false} PassedOn(c: Config, s: State, h: History, e: Event)
    requires AsNoted(s, h) && (e.ReadCutoff? || e.Rotate?) && e.k in s.calls && e.k in Apply(c, s, e).calls
    ensures CallTold(h, Apply(c, s, e).calls[e.k])
  {
    hide AsNoted, PassesCutoff, FactOf, Revoke;
    NotedParts(c, s, h, e.k, 0);
  }

  lemma {:induction false} CallsTold(c: Config, s: State, h: History, e: Event, k: Key)
    requires Base(c, s) && AsNoted(s, h) && k in Apply(c, s, e).calls
    ensures CallTold(Noted(c, s, h, e), Apply(c, s, e).calls[k])
  {
    hide Base, AsNoted, Apply, CallTold, Noted;
    if !Moves(e, k) {
      NotMoved(c, s, e, k);
      CallStaysTold(c, s, h, e, k);
    } else if e.Login? {
      if k in s.calls {
        LoginBusy(c, s, e);
        CallStaysTold(c, s, h, e, k);
      } else {
        LoginTold(c, s, h, e);
      }
    } else if e.Issue? {
      IssueOnlyMoves(c, s, e);
      IssueTold(c, s, h, e);
    } else {
      NothingNoted(c, s, h, e);
      if e.Present? || e.Validate? {
        ReadTold(c, s, h, e);
      } else {
        PassOnlyMoves(c, s, e);
        PassedOn(c, s, h, e);
      }
    }
  }

  lemma {:induction false} LoginBusy(c: Config, s: State, e: Event)
    requires e.Login? && e.k in s.calls
    ensures Apply(c, s, e) == s
  {
    hide Expiry, LoginTime;
  }

  lemma {:induction false} IssueOnlyMoves(c: Config, s: State, e: Event)
    requires e.Issue? && e.k in Apply(c, s, e).calls
    ensures e.k in s.calls
  {
    hide Issued;
  }

  lemma {:induction false} PassOnlyMoves(c: Config, s: State, e: Event)
    requires (e.ReadCutoff? || e.Rotate?) && e.k in Apply(c, s, e).calls
    ensures e.k in s.calls
  {
    hide PassesCutoff, Revoke;
  }

  lemma {:induction false} NothingNoted(c: Config, s: State, h: History, e: Event)
    requires !e.Login? && !e.Issue?
    ensures Noted(c, s, h, e) == h
  {
    hide Apply;
  }

  lemma {:induction false} NotedKept(c: Config, s: State, h: History, e: Event)
    requires Base(c, s) && AsNoted(s, h)
    ensures AsNoted(Apply(c, s, e), Noted(c, s, h, e))
  {
    hide Base, Apply, Noted, CallTold, FactOf;
    var t, g := Apply(c, s, e), Noted(c, s, h, e);
    assert g.Keys == t.issued by { KeysKept(c, s, h, e); }
    forall id | id in t.store
      ensures id in g && FactOf(t.store[id]) == g[id]
    {
      StoredTold(c, s, h, e, id);
    }
    forall k | k in t.calls
      ensures CallTold(g, t.calls[k])
    {
      CallsTold(c, s, h, e, k);
    }
  }

  // ----- descent -----

  lemma {:induction false} InheritsKept(c: Config, s: State, h: History, e: Event, id: Id)
    requires Base(c, s) && AsNoted(s, h) && AllInherit(s, h) && id in Apply(c, s, e).lineage
    ensures Inherits(Noted(c, s, h, e), id, Apply(c, s, e).lineage[id])
  {
    hide Base, AsNoted, Apply, AllInherit, Noted;
    NotedParts(c, s, h, 0, 0);
    BaseParts(c, s, 0);
    if id in s.lineage {
      HistoryKept(c, s, e, id);
      AllInheritAt(s, h, id);
      NotedGrows(c, s, h, e, id);
      NotedGrows(c, s, h, e, s.lineage[id]);
    } else {
      NewInherits(c, s, h, e, id);
    }
  }

  lemma {:induction false} AllInheritAt(s: State, h: History, id: Id)
    requires AllInherit(s, h) && id in s.lineage
    ensures Inherits(h, id, s.lineage[id])
  {
  }

  lemma {:induction false} NewInherits(c: Config, s: State, h: History, e: Event, id: Id)
    requires Base(c, s) && AsNoted(s, h) && AllInherit(s, h) && id in Apply(c, s, e).lineage && id !in s.lineage
    ensures Inherits(Noted(c, s, h, e), id, Apply(c, s, e).lineage[id])
  {
    hide Base, AsNoted, AllInherit, Expiry, Issued, Ends, Refreshable, Live, PassesCutoff, LoginTime;
    NamedBy(c, s, e, id);
    NotedParts(c, s, h, 0, 0);
    BaseParts(c, s, 0);
    if e.Issue? {
      NotedParts(c, s, h, e.k, 0);
      AllInheritAt(s, h, s.calls[e.k].id);
    }
  }

  lemma {:induction false} AllInheritKept(c: Config, s: State, h: History, e: Event)
    requires Base(c, s) && AsNoted(s, h) && AllInherit(s, h)
    ensures AllInherit(Apply(c, s, e), Noted(c, s, h, e))
  {
    hide Base, AsNoted, Apply, Noted, Inherits;
    forall id | id in Apply(c, s, e).lineage
      ensures Inherits(Noted(c, s, h, e), id, Apply(c, s, e).lineage[id])
    {
      InheritsKept(c, s, h, e, id);
    }
  }

  // ----- over runs -----

  lemma {:induction false} RunNoted(c: Config, s: State, h: History, es: seq<Event>)
    requires Base(c, s) && AsNoted(s, h) && AllInherit(s, h)
    ensures AsNoted(Run(c, s, es), Told(c, s, h, es)) && AllInherit(Run(c, s, es), Told(c, s, h, es))
    decreases |es|
  {
    hide Base, Apply, AsNoted, AllInherit, Noted;
    if es != [] {
      BaseKept(c, s, es[0]);
      NotedKept(c, s, h, es[0]);
      AllInheritKept(c, s, h, es[0]);
      RunNoted(c, Apply(c, s, es[0]), Noted(c, s, h, es[0]), es[1..]);
    }
  }

  lemma {:induction false} InitialNoted(c: Config, s: State)
    requires Initial(c, s)
    ensures AsNoted(s, Before(s)) && AllInherit(s, Before(s))
  {
  }

  /** In every run each stored session, and each session a call has in hand, has the user,
      tenant, secret, login, creation and end that the history notes for it. */
  lemma {:induction false} SessionsAreAsNoted(c: Config, s0: State, es: seq<Event>)
    requires Initial(c, s0)
    ensures var t, h := Run(c, s0, es), Told(c, s0, Before(s0), es);
            && (forall id | id in t.store :: id in h && FactOf(t.store[id]) == h[id])
            && (forall k | k in t.calls && !t.calls[k].Reused? :: t.calls[k].id in h
                                                                && FactOf(t.calls[k].s) == h[t.calls[k].id])
  {
    hide Run, Told, Initial, Base, FactOf, AllInherit;
    InitialOk(c, s0);
    InitialNoted(c, s0);
    RunNoted(c, s0, Before(s0), es);
    var t, h := Run(c, s0, es), Told(c, s0, Before(s0), es);
    forall k | k in t.calls && !t.calls[k].Reused?
      ensures t.calls[k].id in h && FactOf(t.calls[k].s) == h[t.calls[k].id]
    {
      NotedParts(c, t, h, k, 0);
    }
  }

  lemma {:induction false} ToldGrows(c: Config, s: State, h: History, es: seq<Event>, id: Id)
    requires Base(c, s) && AsNoted(s, h) && AllInherit(s, h) && id in h
    ensures id in Told(c, s, h, es) && Told(c, s, h, es)[id] == h[id]
    decreases |es|
  {
    hide Base, Apply, AsNoted, AllInherit, Noted;
    if es != [] {
      NotedParts(c, s, h, 0, 0);
      NotedGrows(c, s, h, es[0], id);
      BaseKept(c, s, es[0]);
      NotedKept(c, s, h, es[0]);
      AllInheritKept(c, s, h, es[0]);
      ToldGrows(c, Apply(c, s, es[0]), Noted(c, s, h, es[0]), es[1..], id);
    }
  }

  /** However often a session is replaced, by whatever run, the session at the end of the
      chain belongs to the user and the tenant of the one at its start, has its login time,
      and ends within the lifetime of that login. */
  lemma {:induction false} SuccessorsInherit(c: Config, s0: State, es: seq<Event>, more: seq<Event>, ids: seq<Id>)
    requires Initial(c, s0)
    requires var s, t := Run(c, s0, es), Run(c, Run(c, s0, es), more);
             Chain(t, ids) && ids[0] in s.store && ids[|ids| - 1] in t.store
    ensures var s, t := Run(c, s0, es), Run(c, Run(c, s0, es), more);
            var first, last := FactOf(s.store[ids[0]]), FactOf(t.store[ids[|ids| - 1]]);
            && last.user == first.user && last.tenant == first.tenant && last.login == first.login
            && last.ends <= first.login + if c.maxLifetime > 0 then c.maxLifetime else c.refreshTTL
  {
    hide Run, Base, Descends, AsNoted, AllInherit, Told, Inherits, Initial;
    var s, t := Run(c, s0, es), Run(c, Run(c, s0, es), more);
    var h := Told(c, s0, Before(s0), es);
    var g := Told(c, s, h, more);
    var a, b := ids[0], ids[|ids| - 1];
    InitialOk(c, s0);
    InitialNoted(c, s0);
    assert Descends(s0) by { InitialIsQuiet(c, s0); NothingReplaced(s0); }
    RunBase(c, s0, es);
    RunBase(c, s, more);
    RunDescends(c, s0, es);
    RunDescends(c, s, more);
    RunNoted(c, s0, Before(s0), es);
    RunNoted(c, s, h, more);
    NotedParts(c, s, h, 0, a);
    NotedParts(c, t, g, 0, b);
    ToldGrows(c, s, h, more, a);
    BaseStored(c, s, a);
    BaseStored(c, t, b);
    HistoryStays(c, s, more, a);
    ChainLineage(t, ids);
    AllInheritAt(t, g, a);
    AllInheritAt(t, g, b);
    SameFacts(g, a, b, t.lineage[a]);
  }

  lemma {:induction false} SameFacts(h: History, a: Id, b: Id, login: Id)
    requires Inherits(h, a, login) && Inherits(h, b, login)
    ensures Inherits(h, a, b)
    ensures h[a].user == h[b].user && h[a].tenant == h[b].tenant && h[a].login == h[b].login
  {
  }

  lemma {:induction false} InitialIsQuiet(c: Config, s: State)
    requires Initial(c, s)
    ensures s.calls == map[] && s.successor == map[]
  {
  }

  // ----- calls on their own -----

  lemma {:induction false} RunTwo(c: Config, s: State, a: Event, b: Event)
    ensures Run(c, s, [a, b]) == Apply(c, Apply(c, s, a), b)
  {
    hide Apply;
    assert [a, b][1..] == [b] && [b][1..] == [];
    RunOne(c, Apply(c, s, a), b);
  }

  /** A login with nothing in between stores a session with its user, tenant and secret,
      unless the login time it gives leaves no lifetime. */
  lemma {:induction false} StepsOfLogin(c: Config, s: State, k: Key, id: Id, user: User, tenant: nat, secret: nat,
                                        given: Time)
    requires k !in s.calls && id !in s.issued
    ensures var t := Run(c, s, [Login(k, id, user, tenant, secret, given), Save(k)]);
            var login := if given != ZERO && given < s.now then given else s.now;
            && t.calls == s.calls
            && t.store == if login < s.now && Ends(c, s.now, login) <= s.now then s.store
                          else s.store[id := Session(user, tenant, secret, login, s.now, Ends(c, s.now, login), false)]
  {
    hide Run, Expiry, Ends, Apply, Issued;
    var login := if given != ZERO && given < s.now then given else s.now;
    RunTwo(c, s, Login(k, id, user, tenant, secret, given), Save(k));
    EndsIs(c, s.now, login);
    LoginStep(c, s, k, id, user, tenant, secret, given);
    var t := Apply(c, s, Login(k, id, user, tenant, secret, given));
    SaveStep(c, t, k);
    if k in t.calls {
      IssuedFields(c, s.now, login, user, tenant, secret);
      assert t.calls - {k} == s.calls;
    }
  }

  lemma {:induction false} LoginStep(c: Config, s: State, k: Key, id: Id, user: User, tenant: nat, secret: nat,
                                     given: Time)
    requires k !in s.calls && id !in s.issued
    ensures var t := Apply(c, s, Login(k, id, user, tenant, secret, given));
            var login := if given != ZERO && given < s.now then given else s.now;
            if login < s.now && Expiry(c, s.now, login) <= s.now then t == s
            else t.store == s.store
                 && t.calls == s.calls[k := Saving(None, id, Issued(c, s.now, login, user, tenant, secret))]
  {
    hide Expiry, Issued;
  }

  lemma {:induction false} SaveStep(c: Config, s: State, k: Key)
    ensures k !in s.calls ==> Apply(c, s, Save(k)) == s
    ensures k in s.calls && s.calls[k].Saving? ==>
              && Apply(c, s, Save(k)).store == s.store[s.calls[k].id := s.calls[k].s]
              && Apply(c, s, Save(k)).calls == s.calls - {k}
  {
  }

  lemma {:induction false} IssuedFields(c: Config, now: Time, login: Time, user: User, tenant: nat, secret: nat)
    ensures Issued(c, now, login, user, tenant, secret)
         == Session(user, tenant, secret, login, now, Expiry(c, now, login), false)
  {
  }

  /** A validation with nothing in between accepts a session exactly when the token's user and
      tenant are its own, it is neither revoked nor expired, and the user's cut-off, if there
      is one, is before its login; it changes nothing. */
  lemma {:induction false} StepsOfValidate(c: Config, s: State, k: Key, id: Id, user: User, tenant: nat)
    requires k !in s.calls
    ensures var t := Apply(c, s, Validate(k, id, user, tenant));
            && ((exists x, at :: Accepts(t, FinishValidate(k), x, at)) <==>
                && id in s.store && s.store[id].user == user && s.store[id].tenant == tenant
                && !s.store[id].revoked && s.now <= s.store[id].expiresAt
                && (user in s.cutoffs && s.cutoffs[user] != ZERO ==> Began(s.store[id]) > s.cutoffs[user]))
            && Apply(c, t, FinishValidate(k)) == s
  {
    var t := Apply(c, s, Validate(k, id, user, tenant));
    if Live(s, id, user, tenant) {
      assert s.calls[k := Checking(id, s.store[id], s.now)] - {k} == s.calls;
      if PassesCutoff(t, s.store[id]) {
        assert Accepts(t, FinishValidate(k), s.store[id], s.now);
      }
    }
  }
}
