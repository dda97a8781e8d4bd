/**
  Runs of a job on several replicas over one store: each run holds the job's lease and
  renews it at every tick of its loop, or stops. Two runs of a job never overlap, exactly
  when the loop starts soon enough after the lease was taken.
 */
module CronOverlap {
  import opened CronKeys
  import opened CronLease
  import opened CronLaws
  import KeepAlive

  /** A run that has not ended: the grant of its lease, the time of its next tick, and how
      many ticks in a row could not renew. */
  datatype Job = Job(i: nat, next: int, failures: nat)

  datatype World = World(s: State, jobs: map<nat, Job>)

  /** The lease's time to live, and within what time of taking it a loop starts. */
  datatype Config = Config(ttl: int, delay: int)

  datatype Step =
    | Store(e: Event)          // any other step on the store
    | Pass(to: int)            // time passes, but no tick is passed over
    | Begin(k: nat, i: nat)    // a run begins, with the lease of grant i
    | Extend(k: nat)           // a tick asks the store to renew
    | Miss(k: nat)             // a tick cannot ask the store
    | Finish(k: nat)           // the job ends and gives its lease back

  function Period(c: Config): int {
    c.ttl / 3
  }

  predicate Holds(w: World, k: nat, name: string, token: int) {
    && k in w.jobs && w.jobs[k].i < |w.s.grants|
    && w.s.grants[w.jobs[k].i].key == Lease(name) && w.s.grants[w.jobs[k].i].token == token
  }

  /** Only the run itself renews or gives back its lease. */
  predicate Foreign(w: World, e: Event) {
    match e
    case Tick(_) => false
    case Acquire(_, _) => true
    case Renew(name, token, _) => forall k | k in w.jobs :: !Holds(w, k, name, token)
    case Release(name, token) => forall k | k in w.jobs :: !Holds(w, k, name, token)
  }

  predicate Enabled(c: Config, w: World, step: Step) {
    match step
    case Store(e) => Foreign(w, e)
    case Pass(to) => forall k | k in w.jobs :: to <= w.jobs[k].next
    case Begin(k, i) =>
      && k !in w.jobs && i < |w.s.grants| && w.s.grants[i].key.Lease? && (forall j | j in w.jobs :: w.jobs[j].i != i)
      && w.s.now - (w.s.grants[i].until - c.ttl) < c.delay
    case Extend(k) => k in w.jobs && w.jobs[k].i < |w.s.grants| && w.jobs[k].next == w.s.now
    case Miss(k) => k in w.jobs && w.jobs[k].next == w.s.now
    case Finish(k) => k in w.jobs && w.jobs[k].i < |w.s.grants|
  }

  /** The store after the step. */
  function StoreAfter(stamps: Stamps, c: Config, w: World, step: Step): State
    requires Enabled(c, w, step)
  {
    match step
    case Store(e) => Apply(stamps, w.s, e)
    case Pass(to) => Apply(stamps, w.s, Tick(to))
    case Extend(k) =>
      var g := w.s.grants[w.jobs[k].i];
      Apply(stamps, w.s, Renew(g.key.name, g.token, c.ttl))
    case Finish(k) =>
      var g := w.s.grants[w.jobs[k].i];
      Apply(stamps, w.s, Release(g.key.name, g.token))
    case _ => w.s
  }

  /** The runs after the step: a tick that finds the lease lost ends the run, and so does one
      that exhausts its patience. */
  function JobsAfter(c: Config, w: World, step: Step): map<nat, Job>
    requires Enabled(c, w, step)
  {
    match step
    case Begin(k, i) => w.jobs[k := Job(i, w.s.now + Period(c), 0)]
    case Extend(k) =>
      var job := w.jobs[k];
      var g := w.s.grants[job.i];
      if HeldBy(w.s.db, w.s.now, LeaseKey(g.key.name), g.token) then w.jobs[k := Job(job.i, job.next + Period(c), 0)]
      else w.jobs - {k}
    case Miss(k) =>
      var job := w.jobs[k];
      if job.failures + 1 < KeepAlive.Patience(c.ttl) then
        w.jobs[k := Job(job.i, job.next + Period(c), job.failures + 1)]
      else w.jobs - {k}
    case Finish(k) => w.jobs - {k}
    case _ => w.jobs
  }

  /** One step; one that cannot happen changes nothing. */
  function Taken(stamps: Stamps, c: Config, w: World, step: Step): World {
    if Enabled(c, w, step) then World(StoreAfter(stamps, c, w, step), JobsAfter(c, w, step)) else w
  }

  function Steps(stamps: Stamps, c: Config, w: World, steps: seq<Step>): World
    decreases |steps|
  {
    if steps == [] then w else Steps(stamps, c, Taken(stamps, c, w, steps[0]), steps[1..])
  }

  // ----- every run holds its lease -----

  /** The ticks a run may still miss, in time. */
  function Slack(c: Config, failures: nat): int {
    (KeepAlive.Patience(c.ttl) - 1 - failures) * Period(c)
  }

  /** The run's lease outlasts its next tick by the ticks it may still miss. */
  predicate Covered(c: Config, s: State, job: Job) {
    && job.failures < KeepAlive.Patience(c.ttl) && job.i < |s.grants| && s.grants[job.i].key.Lease?
    && s.now <= job.next && s.grants[job.i].until > job.next + Slack(c, job.failures)
  }

  predicate AllCovered(c: Config, w: World) {
    && (forall k | k in w.jobs :: Covered(c, w.s, w.jobs[k]))
    && (forall k, j | k in w.jobs && j in w.jobs && k != j :: w.jobs[k].i != w.jobs[j].i)
  }

  predicate Sound(c: Config) {
    c.ttl >= 3 && c.delay <= c.ttl - KeepAlive.Bound(c.ttl)
  }

  lemma {:induction false} SlackIs(c: Config, failures: nat)
    requires c.ttl >= 3 && failures < KeepAlive.Patience(c.ttl)
    ensures Slack(c, failures) >= 0
    ensures failures + 1 < KeepAlive.Patience(c.ttl) ==> Slack(c, failures) == Period(c) + Slack(c, failures + 1)
    ensures KeepAlive.Bound(c.ttl) == Period(c) + Slack(c, 0) && KeepAlive.Bound(c.ttl) < c.ttl
  {
    KeepAlive.BoundInsideLease(c.ttl);
    var p := Period(c);
    assert 0 * p == 0 && 1 * p == p && 2 * p == p + p && 3 * p == p + p + p;
  }

  /** A store step that leaves the grant alone leaves the run covered. */
  lemma {:induction false} CoveredStays(c: Config, s: State, t: State, job: Job)
    requires Covered(c, s, job) && t.now == s.now && job.i < |t.grants| && t.grants[job.i] == s.grants[job.i]
    ensures Covered(c, t, job)
  {
    hide Slack;
  }

  /** A foreign step leaves the grants of runs alone. */
  lemma {:induction false} ForeignKeeps(stamps: Stamps, w: World, e: Event, k: nat)
    requires Foreign(w, e) && k in w.jobs && w.jobs[k].i < |w.s.grants| && w.s.grants[w.jobs[k].i].key.Lease?
    ensures var t, i := Apply(stamps, w.s, e), w.jobs[k].i;
            t.now == w.s.now && i < |t.grants| && t.grants[i] == w.s.grants[i]
  {
    hide Text, FenceKey, Acquired, Renewed, CronLease.Released, TokenOf, HeldBy;
    var g := w.s.grants[w.jobs[k].i];
    assert Holds(w, k, g.key.name, g.token);
  }

  lemma {:induction false} StoreCovers(stamps: Stamps, c: Config, w: World, e: Event)
    requires AllCovered(c, w) && Foreign(w, e)
    ensures AllCovered(c, Taken(stamps, c, w, Store(e)))
  {
    hide Apply, Covered, Foreign;
    forall k | k in w.jobs
      ensures Covered(c, Apply(stamps, w.s, e), w.jobs[k])
    {
      CoveredGrant(c, w.s, w.jobs[k]);
      ForeignKeeps(stamps, w, e, k);
      CoveredStays(c, w.s, Apply(stamps, w.s, e), w.jobs[k]);
    }
  }

  lemma {:induction false} CoveredGrant(c: Config, s: State, job: Job)
    requires Covered(c, s, job)
    ensures job.i < |s.grants| && s.grants[job.i].key.Lease?
  {
    hide Slack;
  }

  lemma {:induction false} PassCovers(stamps: Stamps, c: Config, w: World, to: int)
    requires AllCovered(c, w) && Enabled(c, w, Pass(to))
    ensures AllCovered(c, Taken(stamps, c, w, Pass(to)))
  {
    hide Slack;
  }

  lemma {:induction false} BeginCovers(stamps: Stamps, c: Config, w: World, k: nat, i: nat)
    requires Sound(c) && AllCovered(c, w) && Enabled(c, w, Begin(k, i))
    ensures AllCovered(c, Taken(stamps, c, w, Begin(k, i)))
  {
    hide Slack;
    SlackIs(c, 0);
  }

  lemma {:induction false} MissCovers(stamps: Stamps, c: Config, w: World, k: nat)
    requires c.ttl >= 3 && AllCovered(c, w) && Enabled(c, w, Miss(k))
    ensures AllCovered(c, Taken(stamps, c, w, Miss(k)))
  {
    hide Slack;
    SlackIs(c, w.jobs[k].failures);
  }

  /** While a run is covered, the store knows it as the holder: its lease is never lost. */
  lemma {:induction false} CoveredHolds(stamps: Stamps, c: Config, s: State, job: Job)
    requires c.ttl >= 3 && Inv(stamps, s) && Covered(c, s, job)
    ensures var g := s.grants[job.i];
            && s.now < g.until && HeldBy(s.db, s.now, LeaseKey(g.key.name), g.token)
            && s.db[LeaseKey(g.key.name)] == Cell(g.token, Some(g.until))
  {
    hide FenceKey, Fences, Growing, Superseded, Slack;
    SlackIs(c, job.failures);
    assert Believed(stamps, s, s.grants[job.i]);
  }

  /** Renewing extends the grant of the run that renews, and no other's. */
  lemma {:induction false} RenewGrants(stamps: Stamps, s: State, i: nat, ttl: int, j: nat)
    requires Lawful(stamps) && Inv(stamps, s) && i < |s.grants| && j < |s.grants| && s.grants[i].key.Lease?
    requires var g := s.grants[i]; HeldBy(s.db, s.now, LeaseKey(g.key.name), g.token)
    ensures var g := s.grants[i];
            var t := Apply(stamps, s, Renew(g.key.name, g.token, ttl));
            && t.now == s.now && |t.grants| == |s.grants|
            && t.grants[j] == if j == i then g.(until := s.now + ttl) else s.grants[j]
  {
    hide Text, FenceKey, Renewed, HeldBy, Fences, Superseded, Lawful;
    SameToken(stamps, s, i, j);
  }

  lemma {:induction false} SameToken(stamps: Stamps, s: State, i: nat, j: nat)
    requires Inv(stamps, s) && i < |s.grants| && j < |s.grants|
    ensures s.grants[i].key == s.grants[j].key && s.grants[i].token == s.grants[j].token ==> i == j
  {
    hide FenceKey, Text, Fences, Superseded;
  }

  lemma {:induction false} ExtendCovers(stamps: Stamps, c: Config, w: World, k: nat)
    requires Lawful(stamps) && c.ttl >= 3 && Inv(stamps, w.s) && AllCovered(c, w) && Enabled(c, w, Extend(k))
    ensures AllCovered(c, Taken(stamps, c, w, Extend(k)))
  {
    hide Slack, Apply, Inv, Lawful, HeldBy;
    var job := w.jobs[k];
    CoveredHolds(stamps, c, w.s, job);
    SlackIs(c, job.failures);
    SlackIs(c, 0);
    var w' := Taken(stamps, c, w, Extend(k));
    forall j | j in w'.jobs
      ensures Covered(c, w'.s, w'.jobs[j])
    {
      assert Covered(c, w.s, w.jobs[j]);
      RenewGrants(stamps, w.s, job.i, c.ttl, w.jobs[j].i);
    }
  }

  /** Giving a lease back leaves the grants of other runs alone. */
  lemma {:induction false} ReleaseGrants(stamps: Stamps, s: State, i: nat, j: nat)
    requires Inv(stamps, s) && i < |s.grants| && j < |s.grants| && i != j && s.grants[i].key.Lease?
    ensures var g := s.grants[i];
            var t := Apply(stamps, s, Release(g.key.name, g.token));
            t.now == s.now && |t.grants| == |s.grants| && t.grants[j] == s.grants[j]
  {
    hide Text, FenceKey, CronLease.Released, HeldBy, Fences, Superseded;
    SameToken(stamps, s, i, j);
  }

  lemma {:induction false} FinishCovers(stamps: Stamps, c: Config, w: World, k: nat)
    requires c.ttl >= 3 && Inv(stamps, w.s) && AllCovered(c, w) && Enabled(c, w, Finish(k))
    ensures AllCovered(c, Taken(stamps, c, w, Finish(k)))
  {
    hide Slack, Apply, Inv, HeldBy;
    var w' := Taken(stamps, c, w, Finish(k));
    assert Covered(c, w.s, w.jobs[k]);
    forall j | j in w'.jobs
      ensures Covered(c, w'.s, w'.jobs[j])
    {
      assert Covered(c, w.s, w.jobs[j]);
      ReleaseGrants(stamps, w.s, w.jobs[k].i, w.jobs[j].i);
    }
  }

  lemma {:induction false} InvKept(stamps: Stamps, c: Config, w: World, step: Step)
    requires Lawful(stamps) && Inv(stamps, w.s)
    ensures Inv(stamps, Taken(stamps, c, w, step).s)
  {
    hide Inv, Apply, Lawful, HeldBy;
    if Enabled(c, w, step) {
      match step
      case Store(e) => StepKeeps(stamps, w.s, e);
      case Pass(to) => StepKeeps(stamps, w.s, Tick(to));
      case Extend(k) =>
        var g := w.s.grants[w.jobs[k].i];
        StepKeeps(stamps, w.s, Renew(g.key.name, g.token, c.ttl));
      case Finish(k) =>
        var g := w.s.grants[w.jobs[k].i];
        StepKeeps(stamps, w.s, Release(g.key.name, g.token));
      case _ =>
    }
  }

  lemma {:induction false} CoversKept(stamps: Stamps, c: Config, w: World, step: Step)
    requires Lawful(stamps) && Sound(c) && Inv(stamps, w.s) && AllCovered(c, w)
    ensures AllCovered(c, Taken(stamps, c, w, step))
  {
    hide Inv, Lawful, AllCovered, Enabled, StoreAfter, JobsAfter, KeepAlive.Bound;
    if Enabled(c, w, step) {
      match step
      case Store(e) =>
        assert Foreign(w, e) by { StoreEnabled(c, w, e); }
        StoreCovers(stamps, c, w, e);
      case Pass(to) => PassCovers(stamps, c, w, to);
      case Begin(k, i) => BeginCovers(stamps, c, w, k, i);
      case Extend(k) => ExtendCovers(stamps, c, w, k);
      case Miss(k) => MissCovers(stamps, c, w, k);
      case Finish(k) => FinishCovers(stamps, c, w, k);
    }
  }

  lemma {:induction false} StoreEnabled(c: Config, w: World, e: Event)
    requires Enabled(c, w, Store(e))
    ensures Foreign(w, e)
  {
  }

  lemma {:induction false} StepsKeep(stamps: Stamps, c: Config, w: World, steps: seq<Step>)
    requires Lawful(stamps) && Sound(c) && Inv(stamps, w.s) && AllCovered(c, w)
    ensures var t := Steps(stamps, c, w, steps); Inv(stamps, t.s) && AllCovered(c, t)
    decreases |steps|
  {
    hide Inv, Lawful, AllCovered, Taken, Sound;
    if steps != [] {
      InvKept(stamps, c, w, steps[0]);
      CoversKept(stamps, c, w, steps[0]);
      StepsKeep(stamps, c, Taken(stamps, c, w, steps[0]), steps[1..]);
    }
  }

  // ----- no two runs of a job -----

  /** No job has two runs that have not ended. */
  predicate Alone(w: World) {
    forall k, j | k in w.jobs && j in w.jobs && w.jobs[k].i < |w.s.grants| && w.jobs[j].i < |w.s.grants| &&
                  w.s.grants[w.jobs[k].i].key == w.s.grants[w.jobs[j].i].key :: k == j
  }

  lemma {:induction false} CoveredIsAlone(stamps: Stamps, c: Config, w: World)
    requires c.ttl >= 3 && Inv(stamps, w.s) && AllCovered(c, w)
    ensures Alone(w)
  {
    hide Inv, Covered, HeldBy;
    forall k, j | k in w.jobs && j in w.jobs && w.jobs[k].i < |w.s.grants| && w.jobs[j].i < |w.s.grants| &&
                  w.s.grants[w.jobs[k].i].key == w.s.grants[w.jobs[j].i].key
      ensures k == j
    {
      CoveredHolds(stamps, c, w.s, w.jobs[k]);
      CoveredHolds(stamps, c, w.s, w.jobs[j]);
      SameToken(stamps, w.s, w.jobs[k].i, w.jobs[j].i);
    }
  }

  /** In every run of the replicas, from any store without grants. */
  ghost predicate NeverOverlaps(stamps: Stamps, c: Config) {
    forall s, steps | Initial(stamps, s) :: Alone(Steps(stamps, c, World(s, map[]), steps))
  }

  lemma {:induction false} StepsCons(stamps: Stamps, c: Config, w: World, step: Step, steps: seq<Step>)
    ensures Steps(stamps, c, w, [step] + steps) == Steps(stamps, c, Taken(stamps, c, w, step), steps)
    ensures Steps(stamps, c, w, []) == w
  {
    hide Taken;
    assert ([step] + steps)[1..] == steps;
  }

  // ----- a loop that starts too late -----

  /** A lease taken at time 0 by one replica. */
  function First(stamps: Stamps, c: Config): State {
    Apply(stamps, State(0, map[], []), Acquire(Lease(""), c.ttl))
  }

  /** Once it has expired another replica gets it. */
  lemma {:induction false} ExpiredIsTaken(stamps: Stamps, c: Config)
    requires Lawful(stamps) && c.ttl >= 3
    ensures First(stamps, c).now == 0 && First(stamps, c).grants == [Grant(Lease(""), 1, c.ttl)]
    ensures var t := Apply(stamps, First(stamps, c).(now := c.ttl), Acquire(Lease(""), c.ttl));
            && t.now == c.ttl && |t.grants| == 2
            && t.grants[0] == Grant(Lease(""), 1, c.ttl) && t.grants[1] == Grant(Lease(""), 2, c.ttl + c.ttl)
  {
    hide FenceKey, Lawful;
    JobKeys(stamps, "", 0);
  }

  /** The run's loop starts when the bound is just not met, misses its ticks, and waits for
      the last of them when the lease expires. */
  function Waiting(c: Config): seq<Step> {
    var p, d := Period(c), c.ttl - KeepAlive.Bound(c.ttl);
    [Store(Acquire(Lease(""), c.ttl)), Pass(d), Begin(0, 0), Pass(d + p), Miss(0)]
    + (if KeepAlive.Patience(c.ttl) == 3 then [Pass(d + 2 * p), Miss(0)] else [])
  }

  function Overlapping(c: Config): seq<Step> {
    Waiting(c) + [Pass(c.ttl), Store(Acquire(Lease(""), c.ttl)), Begin(1, 1)]
  }

  lemma {:induction false} StepsConcat(stamps: Stamps, c: Config, w: World, a: seq<Step>, b: seq<Step>)
    ensures Steps(stamps, c, w, a + b) == Steps(stamps, c, Steps(stamps, c, w, a), b)
    decreases |a|
  {
    hide Taken;
    if a == [] {
      assert a + b == b;
    } else {
      assert (a + b)[1..] == a[1..] + b;
      StepsConcat(stamps, c, Taken(stamps, c, w, a[0]), a[1..], b);
    }
  }

  /** One step of time, and a tick that is missed. */
  lemma {:induction false} OneMiss(stamps: Stamps, c: Config, w: World, n: nat)
    requires c.ttl >= 3 && n + 1 < KeepAlive.Patience(c.ttl) && w.jobs.Keys == {0} && w.jobs[0].failures == n
    requires w.s.now < w.jobs[0].next
    ensures var job := w.jobs[0];
            Steps(stamps, c, w, [Pass(job.next), Miss(0)])
            == World(w.s.(now := job.next), map[0 := Job(job.i, job.next + Period(c), n + 1)])
  {
    hide Steps;
    var job := w.jobs[0];
    var w1 := Taken(stamps, c, w, Pass(job.next));
    var w2 := Taken(stamps, c, w1, Miss(0));
    assert w1 == World(w.s.(now := job.next), w.jobs);
    assert w2.jobs == map[0 := Job(job.i, job.next + Period(c), n + 1)];
    StepsCons(stamps, c, w, Pass(job.next), [Miss(0)]);
    StepsCons(stamps, c, w1, Miss(0), []);
    StepsCons(stamps, c, w2, Miss(0), []);
    assert [Pass(job.next)] + [Miss(0)] == [Pass(job.next), Miss(0)] && [Miss(0)] + [] == [Miss(0)];
  }

  lemma {:induction false} Begins(stamps: Stamps, c: Config)
    requires Lawful(stamps) && c.ttl >= 3 && c.delay > c.ttl - KeepAlive.Bound(c.ttl) > 0
    ensures var d := c.ttl - KeepAlive.Bound(c.ttl);
            Steps(stamps, c, World(State(0, map[], []), map[]),
              [Store(Acquire(Lease(""), c.ttl)), Pass(d), Begin(0, 0)])
            == World(First(stamps, c).(now := d), map[0 := Job(0, d + Period(c), 0)])
  {
    hide Steps, Apply, Lawful, KeepAlive.Bound;
    var w0, d := World(State(0, map[], []), map[]), c.ttl - KeepAlive.Bound(c.ttl);
    var a, b, e := Store(Acquire(Lease(""), c.ttl)), Pass(d), Begin(0, 0);
    ExpiredIsTaken(stamps, c);
    var w1 := Taken(stamps, c, w0, a);
    assert w1 == World(First(stamps, c), map[]);
    TimePasses(stamps, w1.s, d);
    var w2 := Taken(stamps, c, w1, b);
    assert w2 == World(First(stamps, c).(now := d), map[]);
    var w3 := Taken(stamps, c, w2, e);
    StepsCons(stamps, c, w0, a, [b, e]);
    StepsCons(stamps, c, w1, b, [e]);
    StepsCons(stamps, c, w2, e, []);
    StepsCons(stamps, c, w3, e, []);
    assert [a] + [b, e] == [a, b, e] && [b] + [e] == [b, e] && [e] + [] == [e];
  }

  lemma {:induction false} TimePasses(stamps: Stamps, s: State, to: int)
    requires to > s.now
    ensures Apply(stamps, s, Tick(to)) == s.(now := to)
  {
  }

  /** When the lease expires the run still waits for its last tick. */
  lemma {:induction false} Waits(stamps: Stamps, c: Config)
    requires Lawful(stamps) && c.ttl >= 3 && c.delay > c.ttl - KeepAlive.Bound(c.ttl)
    ensures var t := Steps(stamps, c, World(State(0, map[], []), map[]), Waiting(c));
            && t.jobs.Keys == {0} && t.jobs[0].i == 0 && t.jobs[0].next == c.ttl
            && t.s == First(stamps, c).(now := t.s.now) && t.s.now < c.ttl
  {
    hide Steps, Apply, Lawful, First;
    var w0, p, d := World(State(0, map[], []), map[]), Period(c), c.ttl - KeepAlive.Bound(c.ttl);
    KeepAlive.BoundInsideLease(c.ttl);
    Begins(stamps, c);
    var w := World(First(stamps, c).(now := d), map[0 := Job(0, d + p, 0)]);
    OneMiss(stamps, c, w, 0);
    var start := [Store(Acquire(Lease(""), c.ttl)), Pass(d), Begin(0, 0)];
    StepsConcat(stamps, c, w0, start, [Pass(d + p), Miss(0)]);
    var w' := World(First(stamps, c).(now := d + p), map[0 := Job(0, d + p + p, 1)]);
    if KeepAlive.Patience(c.ttl) == 3 {
      OneMiss(stamps, c, w', 1);
      StepsConcat(stamps, c, w0, start + [Pass(d + p), Miss(0)], [Pass(d + 2 * p), Miss(0)]);
      assert Waiting(c) == start + [Pass(d + p), Miss(0)] + [Pass(d + 2 * p), Miss(0)];
    } else {
      assert Waiting(c) == start + [Pass(d + p), Miss(0)];
    }
  }

  lemma {:induction false} LateLoopOverlaps(stamps: Stamps, c: Config)
    requires Lawful(stamps) && c.ttl >= 3 && c.delay > c.ttl - KeepAlive.Bound(c.ttl)
    ensures !Alone(Steps(stamps, c, World(State(0, map[], []), map[]), Overlapping(c)))
  {
    hide Steps, Apply, Lawful, First, Waiting, KeepAlive.Bound;
    var w0 := World(State(0, map[], []), map[]);
    var a, b, e := Pass(c.ttl), Store(Acquire(Lease(""), c.ttl)), Begin(1, 1);
    Waits(stamps, c);
    ExpiredIsTaken(stamps, c);
    KeepAlive.BoundInsideLease(c.ttl);
    var w := Steps(stamps, c, w0, Waiting(c));
    TimePasses(stamps, w.s, c.ttl);
    var w1 := Taken(stamps, c, w, a);
    assert w1 == World(First(stamps, c).(now := c.ttl), w.jobs);
    var w2 := Taken(stamps, c, w1, b);
    var w3 := Taken(stamps, c, w2, e);
    StepsConcat(stamps, c, w0, Waiting(c), [a, b, e]);
    StepsCons(stamps, c, w, a, [b, e]);
    StepsCons(stamps, c, w1, b, [e]);
    StepsCons(stamps, c, w2, e, []);
    StepsCons(stamps, c, w3, e, []);
    assert [a] + [b, e] == [a, b, e] && [b] + [e] == [b, e] && [e] + [] == [e];
    assert 0 in w3.jobs && 1 in w3.jobs && w3.jobs[0].i == 0 && w3.jobs[1].i == 1;
  }

  /** Runs of one job never overlap, in all runs of the replicas, if and only if the renewal
      loop starts early enough after the lease was taken for the lease to outlast it. */
  lemma {:induction false} NeverOverlapsExactly(stamps: Stamps, c: Config)
    requires Lawful(stamps) && c.ttl >= 3
    ensures NeverOverlaps(stamps, c) <==> c.delay <= c.ttl - KeepAlive.Bound(c.ttl)
  {
    hide Steps, Lawful, Alone, KeepAlive.Bound, Inv;
    if c.delay <= c.ttl - KeepAlive.Bound(c.ttl) {
      forall s, steps | Initial(stamps, s)
        ensures Alone(Steps(stamps, c, World(s, map[]), steps))
      {
        assert Inv(stamps, s) by { InitialIsInv(stamps, s); }
        StepsKeep(stamps, c, World(s, map[]), steps);
        CoveredIsAlone(stamps, c, Steps(stamps, c, World(s, map[]), steps));
      }
    } else {
      LateLoopOverlaps(stamps, c);
      assert Initial(stamps, State(0, map[], []));
    }
  }

  lemma {:induction false} InitialIsInv(stamps: Stamps, s: State)
    requires Initial(stamps, s)
    ensures Inv(stamps, s)
  {
    hide FenceKey, Text;
  }
}
