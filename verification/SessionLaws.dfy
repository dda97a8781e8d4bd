/**
  The guarantees of the session protocol over whole runs.
 */
module SessionLaws {
  import opened Sessions
  import opened SessionRuns

  lemma {:induction false} RunConcat(c: Config, s: State, a: seq<Event>, b: seq<Event>)
    ensures Run(c, s, a + b) == Run(c, Run(c, s, a), b)
    decreases |a|
  {
    hide Apply;
    if a == [] {
      assert a + b == b;
    } else {
      assert (a + b)[1..] == a[1..] + b;
      RunConcat(c, Apply(c, s, a[0]), a[1..], b);
    }
  }

  lemma {:induction false} RunBase(c: Config, s: State, es: seq<Event>)
    requires Base(c, s)
    ensures Base(c, Run(c, s, es))
    decreases |es|
  {
    hide Apply, Base;
    if es != [] {
      BaseKept(c, s, es[0]);
      RunBase(c, Apply(c, s, es[0]), es[1..]);
    }
  }

  lemma {:induction false} RunSingle(c: Config, s: State, es: seq<Event>)
    requires c.atomic && Base(c, s) && Single(s)
    ensures Base(c, Run(c, s, es)) && Single(Run(c, s, es))
    decreases |es|
  {
    hide Apply, Base, Single;
    if es != [] {
      BaseKept(c, s, es[0]);
      SingleKept(c, s, es[0]);
      RunSingle(c, Apply(c, s, es[0]), es[1..]);
    }
  }

  // ----- rotation -----

  /** With an atomic RevokeIfActive, whatever refreshes, logins, logouts and revocations
      interleave, a login never has two holders. */
  lemma {:induction false} OneHolderPerLogin(c: Config, s: State, es: seq<Event>)
    requires c.atomic && Initial(c, s)
    ensures OneHolder(Run(c, s, es))
  {
    hide Run, OneHolder, Base;
    InitialOk(c, s);
    RunSingle(c, s, es);
  }

  lemma {:induction false} SuccessorKept(c: Config, s: State, e: Event, id: Id)
    requires Single(s) && id in s.successor
    ensures id in Apply(c, s, e).successor && Apply(c, s, e).successor[id] == s.successor[id]
  {
    hide OneHolder, Expiry, LoginTime, PassesCutoff, Refreshable, Live, Single;
    if e.Save? {
      SingleParts(s, e.k, id);
    }
  }

  lemma {:induction false} SuccessorsKept(c: Config, s: State, es: seq<Event>, id: Id)
    requires c.atomic && Base(c, s) && Single(s) && id in s.successor
    ensures id in Run(c, s, es).successor && Run(c, s, es).successor[id] == s.successor[id]
    decreases |es|
  {
    hide Apply, Base, Single;
    if es != [] {
      BaseKept(c, s, es[0]);
      SingleKept(c, s, es[0]);
      SuccessorKept(c, s, es[0], id);
      SuccessorsKept(c, Apply(c, s, es[0]), es[1..], id);
    }
  }

  /** Once a session has been replaced, it is never replaced again. */
  lemma {:induction false} OneSuccessor(c: Config, s: State, es: seq<Event>, more: seq<Event>, id: Id)
    requires c.atomic && Initial(c, s) && id in Run(c, s, es).successor
    ensures id in Run(c, s, es + more).successor
    ensures Run(c, s, es + more).successor[id] == Run(c, s, es).successor[id]
  {
    hide Run, Base, Single;
    InitialOk(c, s);
    RunSingle(c, s, es);
    RunConcat(c, s, es, more);
    SuccessorsKept(c, Run(c, s, es), more, id);
  }

  /** A store with one session, logged in at time 1. */
  function Lone(c: Config): State {
    var x := Session(0, 0, 0, 1, 1, Expiry(c, 1, 1), false);
    State(1, map[0 := x], map[], map[], {0}, map[0 := 0], map[0 := 1], map[])
  }

  /** Two refreshes of the same token, each overtaking the other. */
  const RACE := [Present(0, 0, 0), Present(1, 0, 0), ReadCutoff(0), ReadCutoff(1), Rotate(0), Rotate(1),
                 Issue(0, 1, 0), Issue(1, 2, 0), Save(0), Save(1)]

  lemma {:induction false} RaceStep(c: Config, s: State, n: nat, t: State)
    requires n < |RACE| && Run(c, s, RACE[..n]) == t
    ensures Run(c, s, RACE[..n + 1]) == Apply(c, t, RACE[n])
  {
    hide Apply;
    assert RACE[..n + 1] == RACE[..n] + [RACE[n]];
    RunConcat(c, s, RACE[..n], [RACE[n]]);
    assert [RACE[n]][1..] == [];
  }

  lemma {:induction false} RaceLoads(c: Config)
    requires c.refreshTTL > 0
    ensures var x := Lone(c).store[0];
            Run(c, Lone(c), RACE[..4]) == Lone(c).(calls := map[0 := Cleared(0, x), 1 := Cleared(0, x)])
  {
    hide Run;
    var s := Lone(c);
    var x := s.store[0];
    assert Run(c, s, RACE[..0]) == s by { RunNothing(c, s); }
    RaceStep(c, s, 0, s);
    RaceStep(c, s, 1, s.(calls := map[0 := Loaded(0, x, 1)]));
    RaceStep(c, s, 2, s.(calls := map[0 := Loaded(0, x, 1), 1 := Loaded(0, x, 1)]));
    RaceStep(c, s, 3, s.(calls := map[0 := Cleared(0, x), 1 := Loaded(0, x, 1)]));
  }

  lemma {:induction false} RunNothing(c: Config, s: State)
    ensures Run(c, s, RACE[..0]) == s
  {
  }

  lemma {:induction false} RaceRotates(c: Config)
    requires c.refreshTTL > 0 && !c.atomic
    ensures var x := Lone(c).store[0];
            Run(c, Lone(c), RACE[..6]) == Lone(c).(store := map[0 := x.(revoked := true)],
                                                   calls := map[0 := Rotating(0, x), 1 := Rotating(0, x)])
  {
    hide Run;
    RaceLoads(c);
    var s := Lone(c);
    RaceStep(c, s, 4, Run(c, s, RACE[..4]));
    RaceStep(c, s, 5, Run(c, s, RACE[..5]));
  }

  lemma {:induction false} RaceIssues(c: Config)
    requires c.refreshTTL > 0 && !c.atomic
    ensures var x := Lone(c).store[0];
            Run(c, Lone(c), RACE[..8]) == Lone(c).(store := map[0 := x.(revoked := true)], issued := {0, 1, 2},
                                                   lineage := map[0 := 0, 1 := 0, 2 := 0],
                                                   calls := map[0 := Saving(Some(0), 1, x), 1 := Saving(Some(0), 2, x)])
  {
    hide Run;
    RaceRotates(c);
    var s := Lone(c);
    RaceStep(c, s, 6, Run(c, s, RACE[..6]));
    RaceStep(c, s, 7, Run(c, s, RACE[..7]));
  }

  /** Without an atomic revocation both refreshes win: the login has two live sessions. */
  lemma {:induction false} RaceWithoutAtomic(c: Config)
    requires c.refreshTTL > 0 && !c.atomic
    ensures Initial(c, Lone(c))
    ensures var s := Run(c, Lone(c), RACE);
            Holds(s, InStore(1)) && Holds(s, InStore(2)) && SameLogin(s, InStore(1), InStore(2))
  {
    hide Run;
    RaceIssues(c);
    var s := Lone(c);
    RaceStep(c, s, 8, Run(c, s, RACE[..8]));
    RaceStep(c, s, 9, Run(c, s, RACE[..9]));
    assert RACE[..10] == RACE;
  }

  /** The guarantee holds exactly for stores with an atomic revocation. */
  lemma {:induction false} OneHolderExactlyWhenAtomic(c: Config)
    requires c.refreshTTL > 0
    ensures c.atomic <==> forall s, es | Initial(c, s) :: OneHolder(Run(c, s, es))
  {
    hide Run, Apply;
    if c.atomic {
      forall s, es | Initial(c, s)
        ensures OneHolder(Run(c, s, es))
      {
        OneHolderPerLogin(c, s, es);
      }
    } else {
      RaceWithoutAtomic(c);
    }
  }

  // ----- the cut-off -----

  /** A cut-off recorded at time cut is still in force, or older than the store keeps it. */
  predicate InForce(c: Config, s: State, user: User, cut: Time) {
    && s.now >= cut > ZERO
    && (user in s.cutoffs ==> s.cutoffs[user] >= cut)
    && (user in s.cutoffs || s.now > cut + c.cutoffTTL)
  }

  lemma {:induction false} InForceKept(c: Config, s: State, e: Event, user: User, cut: Time)
    requires InForce(c, s, user, cut)
    ensures InForce(c, Apply(c, s, e), user, cut)
  {
    hide Refreshable, Live, PassesCutoff, Expiry, LoginTime;
  }

  lemma {:induction false} InForceRun(c: Config, s: State, es: seq<Event>, user: User, cut: Time)
    requires InForce(c, s, user, cut)
    ensures InForce(c, Run(c, s, es), user, cut)
    decreases |es|
  {
    hide Apply, InForce;
    if es != [] {
      InForceKept(c, s, es[0], user, cut);
      InForceRun(c, Apply(c, s, es[0]), es[1..], user, cut);
    }
  }

  /** The event records a cut-off for the user. */
  predicate CutsOff(s: State, e: Event, user: User) {
    e == CutOff(user) || (e.ReuseCutOff? && e.k in s.calls && s.calls[e.k] == Reused(user))
  }

  /** After a cut-off at s.now, neither a refresh nor a validation lets a session of the
      user through unless its login is later, whichever way it came to be stored. Once the
      store has dropped the record, the two reads of one call may be as far apart as the
      record outlives a session. */
  lemma {:induction false} NothingPastCutoff(c: Config, s0: State, es: seq<Event>, cut: Event, more: seq<Event>,
                                             e: Event, x: Session, at: Time)
    requires Initial(c, s0)
    requires var s := Run(c, s0, es); CutsOff(s, cut, x.user)
    requires var t := Run(c, s0, es + [cut] + more);
             Accepts(t, e, x, at) && (x.user in t.cutoffs || t.now - at <= c.cutoffTTL - Lifetime(c))
    ensures AuthTimeOf(x) > Run(c, s0, es).now
  {
    hide Run, Apply, Initial, Base;
    var s := Run(c, s0, es);
    var s' := Apply(c, s, cut);
    var t := Run(c, s', more);
    InitialOk(c, s0);
    RunBase(c, s0, es);
    BaseParts(c, s, 0);
    CutRecorded(c, s, cut, x.user);
    InForceRun(c, s', more, x.user, s.now);
    RunConcat(c, s0, es + [cut], more);
    RunConcat(c, s0, es, [cut]);
    RunOne(c, s, cut);
    RunBase(c, s0, es + [cut] + more);
    BaseParts(c, t, e.k);
  }

  lemma {:induction false} RunOne(c: Config, s: State, e: Event)
    ensures Run(c, s, [e]) == Apply(c, s, e)
  {
    hide Apply;
    assert [e][1..] == [];
  }

  lemma {:induction false} CutRecorded(c: Config, s: State, cut: Event, user: User)
    requires CutsOff(s, cut, user) && s.now > ZERO
    ensures InForce(c, Apply(c, s, cut), user, s.now)
  {
  }

  /** Presenting the genuine token of a revoked session cuts the user off; presenting a
      wrong secret, or an unknown session, changes nothing at all. */
  lemma {:induction false} ReuseCutsOff(c: Config, s: State, k: Key, id: Id, secret: nat)
    requires k !in s.calls
    ensures var t := Apply(c, s, Present(k, id, secret));
            if id !in s.store || s.store[id].secret != secret then t == s
            else s.store[id].revoked <==> CutsOff(t, ReuseCutOff(k), s.store[id].user)
  {
  }

  // ----- lifetimes -----

  /** Every accepted session was read within the lifetime of the login it descends from. */
  lemma {:induction false} AcceptedInLifetime(c: Config, s0: State, es: seq<Event>, e: Event, x: Session, at: Time)
    requires Initial(c, s0)
    requires Accepts(Run(c, s0, es), e, x, at)
    ensures var t := Run(c, s0, es);
            var id := t.calls[e.k].id;
            && id in t.lineage && t.lineage[id] in t.login
            && AuthTimeOf(x) == t.login[t.lineage[id]]
            && at <= t.login[t.lineage[id]] + if c.maxLifetime > 0 then c.maxLifetime else c.refreshTTL
  {
    hide Run, Apply, Initial, Base;
    InitialOk(c, s0);
    RunBase(c, s0, es);
    BaseParts(c, Run(c, s0, es), e.k);
  }

  /** The login a session descends from, and its time, stay in the history. */
  lemma {:induction false} HistoryStays(c: Config, s: State, es: seq<Event>, id: Id)
    requires Base(c, s) && id in s.lineage
    ensures var t := Run(c, s, es);
            && id in t.lineage && t.lineage[id] == s.lineage[id]
            && s.lineage[id] in s.login && s.lineage[id] in t.login && t.login[s.lineage[id]] == s.login[s.lineage[id]]
    decreases |es|
  {
    hide Apply, Base;
    BaseNamed(c, s, id);
    if es != [] {
      BaseKept(c, s, es[0]);
      BaseParts(c, s, 0);
      HistoryKept(c, s, es[0], id);
      LoginKept(c, s, es[0], s.lineage[id]);
      HistoryStays(c, Apply(c, s, es[0]), es[1..], id);
    }
  }

  predicate SameLineage(s: State, a: Id, b: Id) {
    a in s.lineage && b in s.lineage && s.lineage[a] == s.lineage[b]
  }

  /** A session and the one that replaces it descend from the same login. */
  predicate Descends(s: State) {
    && (forall k | k in s.calls && s.calls[k].Saving? && s.calls[k].parent.Some? ::
          SameLineage(s, s.calls[k].parent.value, s.calls[k].id))
    && (forall id | id in s.successor :: SameLineage(s, id, s.successor[id]))
  }

  lemma {:induction false} SuccessorFrom(c: Config, s: State, e: Event, id: Id)
    requires id in Apply(c, s, e).successor
    ensures var t := Apply(c, s, e);
            || (id in s.successor && s.successor[id] == t.successor[id])
            || (e.Save? && e.k in s.calls && s.calls[e.k] == Saving(Some(id), t.successor[id], s.calls[e.k].s))
  {
    hide Refreshable, Live, PassesCutoff, Expiry, LoginTime, Issued, Revoke;
  }

  lemma {:induction false} SavingFrom(c: Config, s: State, e: Event, k: Key)
    requires Base(c, s) && k in Apply(c, s, e).calls && Apply(c, s, e).calls[k].Saving?
    requires Apply(c, s, e).calls[k].parent.Some?
    ensures var t := Apply(c, s, e);
            || (k in s.calls && s.calls[k] == t.calls[k])
            || SameLineage(t, t.calls[k].parent.value, t.calls[k].id)
  {
    hide Base, Apply;
    BaseParts(c, s, k);
    if !Moves(e, k) {
      NotMoved(c, s, e, k);
    } else {
      IssuedHere(c, s, e, k);
    }
  }

  lemma {:induction false} IssuedHere(c: Config, s: State, e: Event, k: Key)
    requires s.lineage.Keys == s.issued && Moves(e, k) && k in Apply(c, s, e).calls
    requires Apply(c, s, e).calls[k].Saving? && Apply(c, s, e).calls[k].parent.Some?
    ensures var t := Apply(c, s, e);
            || (k in s.calls && s.calls[k] == t.calls[k])
            || SameLineage(t, t.calls[k].parent.value, t.calls[k].id)
  {
    hide OnIssue, SameLineage, Refreshable, Live, PassesCutoff, Expiry, LoginTime, Issued, Revoke;
    if e.Issue? {
      IssuedSame(c, s, e.k, e.id, e.secret);
    } else if e.Validate? {
      assert k in s.calls;
    } else {
      OnlyIssued(c, s, e, k);
    }
  }

  lemma {:induction false} OnlyIssued(c: Config, s: State, e: Event, k: Key)
    requires Moves(e, k) && !e.Issue? && !e.Validate? && k in Apply(c, s, e).calls
    requires Apply(c, s, e).calls[k].Saving? && Apply(c, s, e).calls[k].parent.Some?
    ensures k in s.calls && s.calls[k] == Apply(c, s, e).calls[k]
  {
    hide OnLogin, OnPresent, OnReadCutoff, OnRotate, OnIssue, OnSave, OnReuse;
    if e.Login? {
      LoginSaves(c, s, e);
    } else if e.Present? || e.ReadCutoff? {
      ReadingSavesNothing(c, s, e);
    } else {
      RotatingSavesNothing(c, s, k);
    }
  }

  lemma {:induction false} LoginSaves(c: Config, s: State, e: Event)
    requires e.Login?
    ensures var t := OnLogin(c, s, e.k, e.id, e.user, e.tenant, e.secret, e.authTime);
            t == s || (e.k in t.calls && t.calls[e.k].Saving? && t.calls[e.k].parent.None?)
  {
    hide Expiry, LoginTime, Issued;
  }

  lemma {:induction false} ReadingSavesNothing(c: Config, s: State, e: Event)
    requires e.Present? || e.ReadCutoff?
    ensures var t := if e.Present? then OnPresent(c, s, e.k, e.id, e.secret) else OnReadCutoff(s, e.k);
            t == s || e.k !in t.calls || !t.calls[e.k].Saving?
  {
    hide Refreshable, PassesCutoff;
  }

  lemma {:induction false} RotatingSavesNothing(c: Config, s: State, k: Key)
    ensures var t := OnRotate(c, s, k); t == s || k !in t.calls || !t.calls[k].Saving?
  {
    hide Revoke;
  }

  lemma {:induction false} IssuedSame(c: Config, s: State, k: Key, id: Id, secret: nat)
    requires s.lineage.Keys == s.issued
    ensures var t := OnIssue(c, s, k, id, secret);
            t == s || (k in t.calls && t.calls[k].Saving? && t.calls[k].parent.Some?
                       && SameLineage(t, t.calls[k].parent.value, t.calls[k].id))
  {
    hide Issued;
  }

  lemma {:induction false} SameLineageKept(c: Config, s: State, e: Event, a: Id, b: Id)
    requires s.lineage.Keys == s.issued && SameLineage(s, a, b)
    ensures SameLineage(Apply(c, s, e), a, b)
  {
    hide Apply;
    HistoryKept(c, s, e, a);
    HistoryKept(c, s, e, b);
  }

  lemma {:induction false} DescendsKept(c: Config, s: State, e: Event)
    requires Base(c, s) && Descends(s)
    ensures Descends(Apply(c, s, e))
  {
    hide Apply, Base, SameLineage;
    var t := Apply(c, s, e);
    BaseParts(c, s, 0);
    forall k | k in t.calls && t.calls[k].Saving? && t.calls[k].parent.Some?
      ensures SameLineage(t, t.calls[k].parent.value, t.calls[k].id)
    {
      SavingFrom(c, s, e, k);
      if k in s.calls && s.calls[k] == t.calls[k] {
        SameLineageKept(c, s, e, t.calls[k].parent.value, t.calls[k].id);
      }
    }
    forall id | id in t.successor
      ensures SameLineage(t, id, t.successor[id])
    {
      SuccessorFrom(c, s, e, id);
      SameLineageKept(c, s, e, id, t.successor[id]);
    }
  }

  lemma {:induction false} RunDescends(c: Config, s: State, es: seq<Event>)
    requires Base(c, s) && Descends(s)
    ensures Descends(Run(c, s, es))
    decreases |es|
  {
    hide Apply, Base, Descends;
    if es != [] {
      BaseKept(c, s, es[0]);
      DescendsKept(c, s, es[0]);
      RunDescends(c, Apply(c, s, es[0]), es[1..]);
    }
  }

  /** Each session of the chain was replaced by the next. */
  predicate Chain(s: State, ids: seq<Id>) {
    var n := |ids| - 1;
    n == 0 || (n > 0 && ids[n - 1] in s.successor && s.successor[ids[n - 1]] == ids[n] && Chain(s, ids[..n]))
  }

  lemma {:induction false} ChainLineage(s: State, ids: seq<Id>)
    requires Descends(s) && Chain(s, ids) && ids[0] in s.lineage
    ensures SameLineage(s, ids[0], ids[|ids| - 1])
    decreases |ids|
  {
    var n := |ids| - 1;
    if n > 0 {
      ChainLineage(s, ids[..n]);
      assert SameLineage(s, ids[n - 1], s.successor[ids[n - 1]]);
    }
  }

  /** However often a session is replaced, by whatever run, the session at the end of the
      chain carries the login time of the one at its start, and ends within its lifetime. */
  lemma {:induction false} LoginNeverMoves(c: Config, s0: State, es: seq<Event>, more: seq<Event>, ids: seq<Id>)
    requires Initial(c, s0)
    requires var s, t := Run(c, s0, es), Run(c, Run(c, s0, es), more);
             Chain(t, ids) && ids[0] in s.store && ids[|ids| - 1] in t.store
    ensures var s, t := Run(c, s0, es), Run(c, Run(c, s0, es), more);
            var first, last := s.store[ids[0]], t.store[ids[|ids| - 1]];
            AuthTimeOf(last) == AuthTimeOf(first) && last.expiresAt <= AuthTimeOf(first) + Lifetime(c)
  {
    hide Run, Base, Descends;
    var s, t := Run(c, s0, es), Run(c, Run(c, s0, es), more);
    InitialOk(c, s0);
    assert Descends(s0) by { NothingReplaced(s0); }
    RunBase(c, s0, es);
    RunBase(c, s, more);
    RunDescends(c, s0, es);
    RunDescends(c, s, more);
    BaseStored(c, s, ids[0]);
    BaseStored(c, t, ids[|ids| - 1]);
    HistoryStays(c, s, more, ids[0]);
    ChainLineage(t, ids);
  }

  lemma {:induction false} NothingReplaced(s: State)
    requires s.calls == map[] && s.successor == map[]
    ensures Descends(s)
  {
  }

  /** A login time given by the caller can only shorten the session, and is used exactly
      when it is set and in the past. */
  lemma {:induction false} GivenTimeOnlyShortens(c: Config, now: Time, given: Time)
    ensures LoginTime(now, given) <= now
    ensures LoginTime(now, given) == given <==> given == now || (given != ZERO && given < now)
    ensures Expiry(c, now, LoginTime(now, given)) <= Expiry(c, now, now)
    ensures Expiry(c, now, LoginTime(now, given)) <= LoginTime(now, given) + Lifetime(c)
  {
  }

  // ----- a refresh on its own -----

  function StepsOf(k: Key, id: Id, secret: nat, newId: Id, newSecret: nat): seq<Event> {
    [Present(k, id, secret), ReadCutoff(k), Rotate(k), Issue(k, newId, newSecret), Save(k)]
  }

  lemma {:induction false} StepsUnfold(c: Config, s: State, k: Key, id: Id, secret: nat, newId: Id, newSecret: nat)
    ensures Run(c, s, StepsOf(k, id, secret, newId, newSecret))
         == var a := Apply(c, Apply(c, Apply(c, s, Present(k, id, secret)), ReadCutoff(k)), Rotate(k));
            Apply(c, Apply(c, a, Issue(k, newId, newSecret)), Save(k))
  {
    hide Apply;
    var es := StepsOf(k, id, secret, newId, newSecret);
    RunConcat(c, s, es[..4], es[4..]);
    RunConcat(c, s, es[..3], es[3..4]);
    RunConcat(c, s, es[..2], es[2..3]);
    RunConcat(c, s, es[..1], es[1..2]);
    assert es == es[..4] + es[4..] && es[..4] == es[..3] + es[3..4] && es[..3] == es[..2] + es[2..3];
    assert es[..2] == es[..1] + es[1..2];
    RunOne(c, s, es[0]);
    RunOne(c, Run(c, s, es[..1]), es[1]);
    RunOne(c, Run(c, s, es[..2]), es[2]);
    RunOne(c, Run(c, s, es[..3]), es[3]);
    RunOne(c, Run(c, s, es[..4]), es[4]);
  }

  lemma {:induction false} GrantedSteps(c: Config, s: State, k: Key, id: Id, newId: Id, newSecret: nat)
    requires Base(c, s) && k !in s.calls && newId !in s.issued && id in s.store && !s.store[id].revoked
    ensures var x := s.store[id];
            var a := Apply(c, At(s, k, Cleared(id, x)), Rotate(k));
            var t := Apply(c, Apply(c, a, Issue(k, newId, newSecret)), Save(k));
            && t.cutoffs == s.cutoffs && t.calls == s.calls
            && t.store == Revoke(s.store, id)[newId := Issued(c, s.now, AuthTimeOf(x), x.user, x.tenant, newSecret)]
  {
    hide Base, Expiry, AuthTimeOf;
    BaseParts(c, s, k);
    BaseStored(c, s, id);
    var x := s.store[id];
    assert Apply(c, At(s, k, Cleared(id, x)), Rotate(k)) == At(s, k, Rotating(id, x)).(store := Revoke(s.store, id));
  }

  /** With nothing in between, the steps of a granted refresh do what RefreshToken does. */
  lemma {:induction false} StepsOfRefresh(c: Config, s: State, k: Key, id: Id, secret: nat, newId: Id, newSecret: nat)
    requires Base(c, s) && k !in s.calls && newId !in s.issued
    ensures var found := Found(s.store, false, id, s.now);
            var r := RefreshResult(c, found, CutoffOf(s.cutoffs, found), secret, s.now, Granted, s.now, newId,
                                   newSecret);
            var t := Run(c, s, StepsOf(k, id, secret, newId, newSecret));
            && t.cutoffs == s.cutoffs
            && (r.ReuseDetected? ==> t.store == s.store && t.calls == s.calls[k := Reused(s.store[id].user)])
            && (!r.ReuseDetected? ==> t.store == StoreAfter(s.store, id, Granted, r) && t.calls == s.calls)
  {
    hide Base, Run, Apply, Expiry, AuthTimeOf, Lifetime, Issued, Revoke, RevokeAll, StepsOf;
    StepsUnfold(c, s, k, id, secret, newId, newSecret);
    FirstSteps(c, s, k, id, secret);
    if Refreshable(c, s, id, secret) && PassesCutoff(s, s.store[id]) {
      GrantedSteps(c, s, k, id, newId, newSecret);
    } else {
      LastSteps(c, Apply(c, Apply(c, s, Present(k, id, secret)), ReadCutoff(k)), k, newId, newSecret);
      assert s.store - {id} == s.store || id in s.store;
    }
  }

  lemma {:induction false} FirstSteps(c: Config, s: State, k: Key, id: Id, secret: nat)
    requires k !in s.calls
    ensures Apply(c, Apply(c, s, Present(k, id, secret)), ReadCutoff(k))
         == if Refreshable(c, s, id, secret) then
              (if PassesCutoff(s, s.store[id]) then At(s, k, Cleared(id, s.store[id])) else s)
            else if id in s.store && s.store[id].secret == secret && s.store[id].revoked then
              At(s, k, Reused(s.store[id].user))
            else s
  {
    hide Expiry, AuthTimeOf;
    if Refreshable(c, s, id, secret) {
      SecondStep(c, s, k, id, s.store[id], s.now);
    }
  }

  lemma {:induction false} SecondStep(c: Config, s: State, k: Key, id: Id, x: Session, at: Time)
    requires k !in s.calls
    ensures Apply(c, At(s, k, Loaded(id, x, at)), ReadCutoff(k))
            == if PassesCutoff(s, x) then At(s, k, Cleared(id, x)) else s
  {
    hide AuthTimeOf;
    assert At(At(s, k, Loaded(id, x, at)), k, Cleared(id, x)) == At(s, k, Cleared(id, x));
    assert Without(At(s, k, Loaded(id, x, at)), k) == s;
  }

  lemma {:induction false} LastSteps(c: Config, s: State, k: Key, newId: Id, newSecret: nat)
    requires k in s.calls ==> s.calls[k].Reused?
    ensures Apply(c, Apply(c, Apply(c, s, Rotate(k)), Issue(k, newId, newSecret)), Save(k)) == s
  {
  }
}
