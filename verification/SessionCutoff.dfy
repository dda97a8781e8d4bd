/**
  How far apart the two reads of a call may be for a user-wide cut-off to hold: the store
  forgets the cut-off some time after the sessions it cuts off have expired.
 */
module SessionCutoff {
  import opened Sessions
  import opened SessionRuns
  import opened SessionLaws

  /** A session of the user is let through although its login is not after the cut-off, by a
      call whose reads are at most gap apart. */
  ghost predicate SlipsPast(c: Config, gap: Time, s0: State, es: seq<Event>, cut: Event, more: seq<Event>, e: Event,
                            x: Session, at: Time)
  {
    var s, t := Run(c, s0, es), Run(c, s0, es + [cut] + more);
    && Initial(c, s0) && CutsOff(s, cut, x.user)
    && Accepts(t, e, x, at) && t.now - at <= gap && AuthTimeOf(x) <= s.now
  }

  ghost predicate CutoffHolds(c: Config, gap: Time) {
    forall s0, es, cut, more, e, x, at :: !SlipsPast(c, gap, s0, es, cut, more, e, x, at)
  }

  // ----- a call that slips past -----

  /** A store with one session, logged in at time 1 and valid for its whole lifetime. */
  function Alone(c: Config): State {
    State(1, map[0 := Lasting(c)], map[], map[], {0}, map[0 := 0], map[0 := 1], map[])
  }

  function Lasting(c: Config): Session {
    Session(0, 0, 0, 1, 1, 1 + Lifetime(c), false)
  }

  /** When the cut-off of time 1 can be forgotten. */
  function Forgotten(c: Config): Time {
    c.cutoffTTL + 2
  }

  /** When the session is read: as late as it is valid. */
  function ReadAt(c: Config): Time {
    if Forgotten(c) <= 1 + Lifetime(c) then Forgotten(c) else 1 + Lifetime(c)
  }

  function Waiting(c: Config): seq<Event> {
    [Tick(ReadAt(c)), Validate(0, 0, 0, 0), Tick(Forgotten(c)), ForgetCutoff(0)]
  }

  lemma {:induction false} WaitingRun(c: Config)
    requires Lifetime(c) >= 0 && c.cutoffTTL >= 0
    ensures var t := Run(c, Apply(c, Alone(c), CutOff(0)), Waiting(c));
            t == Alone(c).(now := Forgotten(c), calls := map[0 := Checking(0, Lasting(c), ReadAt(c))])
  {
    hide Run, Lifetime;
    var s := Apply(c, Alone(c), CutOff(0));
    assert s == Alone(c).(cutoffs := map[0 := 1]);
    var s1 := Apply(c, s, Tick(ReadAt(c)));
    assert s1 == s.(now := ReadAt(c));
    var s2 := Apply(c, s1, Validate(0, 0, 0, 0));
    assert s2 == s1.(calls := map[0 := Checking(0, Lasting(c), ReadAt(c))]);
    var s3 := Apply(c, s2, Tick(Forgotten(c)));
    assert s3 == s2.(now := Forgotten(c));
    var s4 := Apply(c, s3, ForgetCutoff(0));
    assert s4 == s3.(cutoffs := map[]);
    FourSteps(c, s, Waiting(c));
  }

  lemma {:induction false} FourSteps(c: Config, s: State, es: seq<Event>)
    requires |es| == 4
    ensures Run(c, s, es) == Apply(c, Apply(c, Apply(c, Apply(c, s, es[0]), es[1]), es[2]), es[3])
  {
    hide Apply;
    var s1 := Apply(c, s, es[0]);
    var s2 := Apply(c, s1, es[1]);
    var s3 := Apply(c, s2, es[2]);
    assert es[1..][0] == es[1] && es[2..][0] == es[2] && es[3..][0] == es[3];
    assert es[1..][1..] == es[2..] && es[2..][1..] == es[3..] && es[3..][1..] == [];
    assert Run(c, s3, es[3..]) == Run(c, Apply(c, s3, es[3]), []);
    assert Run(c, s2, es[2..]) == Run(c, s3, es[3..]);
    assert Run(c, s1, es[1..]) == Run(c, s2, es[2..]);
  }

  lemma {:induction false} LateReadSlipsPast(c: Config, gap: Time)
    requires Lifetime(c) >= 0 && c.cutoffTTL >= 0 && gap >= 0 && gap > c.cutoffTTL - Lifetime(c)
    ensures SlipsPast(c, gap, Alone(c), [], CutOff(0), Waiting(c), FinishValidate(0), Lasting(c), ReadAt(c))
  {
    hide Run, Lifetime, Apply;
    var s0 := Alone(c);
    WaitingRun(c);
    RunNothing(c, s0);
    assert [] + [CutOff(0)] + Waiting(c) == [CutOff(0)] + Waiting(c);
    RunConcat(c, s0, [CutOff(0)], Waiting(c));
    RunOne(c, s0, CutOff(0));
    AloneIsInitial(c);
  }

  lemma {:induction false} RunNothing(c: Config, s: State)
    ensures Run(c, s, []) == s
  {
  }

  lemma {:induction false} AloneIsInitial(c: Config)
    ensures Initial(c, Alone(c))
  {
    hide Lifetime;
  }

  /** A cut-off holds in all runs whose calls have their reads at most gap apart, if and only
      if the store keeps it for that long after the sessions it cuts off have expired. */
  lemma {:induction false} CutoffHoldsExactly(c: Config, gap: Time)
    requires Lifetime(c) >= 0 && c.cutoffTTL >= 0 && gap >= 0
    ensures CutoffHolds(c, gap) <==> gap <= c.cutoffTTL - Lifetime(c)
  {
    hide Run, Lifetime, Initial, Apply;
    if gap <= c.cutoffTTL - Lifetime(c) {
      forall s0, es, cut, more, e, x, at
        ensures !SlipsPast(c, gap, s0, es, cut, more, e, x, at)
      {
        if SlipsPast(c, gap, s0, es, cut, more, e, x, at) {
          NothingPastCutoff(c, s0, es, cut, more, e, x, at);
        }
      }
    } else {
      LateReadSlipsPast(c, gap);
    }
  }
}
