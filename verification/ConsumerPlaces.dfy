/**
  What becomes of every registered entry: in every run each entry that a start has taken is
  in one place, and a supervised one is consumed again whenever its consumer stops, until
  shutdown.
 */
module ConsumerPlaces {
  import opened Consumers

  /** Waiting for its turn in a start, supervised, without a topic, dropped because the
      manager was closed, or left by its supervisor. */
  datatype Place = AtStart(s: Key) | AtSup(v: Key) | Skipped | Dropped | Ended

  type Places = map<nat, Place>

  /** Where the entries are after the event. */
  function Moved(st: State, m: Places, e: Event): Places {
    if !Enabled(st, e) then m
    else match e
      case Start(s) => m + map i | i in Pending(st.queue.started, st.queue.entries) :: AtStart(s)
      case Skip(s) => m[st.starts[s].pending[0] := Skipped]
      case Drop(s) => m[st.starts[s].pending[0] := Dropped]
      case Admit(s, v) => m[st.starts[s].pending[0] := AtSup(v)]
      case Leave(v) => m[st.sups[v].entry := Ended]
      case _ => m
  }

  function MovedAll(st: State, m: Places, es: seq<Event>): Places
    decreases |es|
  {
    if es == [] then m else MovedAll(Apply(st, es[0]), Moved(st, m, es[0]), es[1..])
  }

  /** The entry is there, and what ended it is true. */
  predicate IsAt(st: State, p: Place, i: nat) {
    match p
    case AtStart(s) => s in st.starts && i in st.starts[s].pending
    case AtSup(v) => v in st.sups && st.sups[v].entry == i
    case Skipped => true
    case Dropped => st.gate.closed
    case Ended => st.gate.cancelled
  }

  predicate Rising(xs: seq<nat>) {
    forall i, j | 0 <= i < j < |xs| :: xs[i] < xs[j]
  }

  ghost predicate Known(st: State, m: Places) {
    forall i: nat :: i in m <==> i < st.queue.started
  }

  predicate AllAt(st: State, m: Places) {
    forall i | i in m :: IsAt(st, m[i], i)
  }

  /** The entries a start has still to do are its own. */
  predicate Own(st: State, m: Places) {
    && (forall s | s in st.starts :: Rising(st.starts[s].pending))
    && (forall s, i | s in st.starts && i in st.starts[s].pending :: i in m && m[i] == AtStart(s))
  }

  predicate Supervised(st: State, m: Places) {
    forall v | v in st.sups :: st.sups[v].entry in m && m[st.sups[v].entry] == AtSup(v)
  }

  /** A supervisor leaves only after shutdown has begun. */
  predicate Staying(st: State) {
    forall v | v in st.sups && st.sups[v].phase.Leaving? :: st.gate.cancelled
  }

  ghost predicate Placed(st: State, m: Places) {
    Known(st, m) && AllAt(st, m) && Own(st, m) && Supervised(st, m) && Staying(st)
  }

  lemma {:induction false} StayingKept(st: State, e: Event)
    requires Staying(st)
    ensures Staying(Apply(st, e))
  {
    hide QueueAfter, StartsAfter, BookAfter;
  }

  /** The first entry of a start's rest. */
  lemma {:induction false} HeadIs(st: State, m: Places, s: Key)
    requires Placed(st, m) && HasNext(st, s)
    ensures var i := st.starts[s].pending[0];
            && i in m && m[i] == AtStart(s) && i < st.queue.started
            && i !in st.starts[s].pending[1..] && Rising(st.starts[s].pending[1..])
  {
    var xs := st.starts[s].pending;
    assert xs[0] in xs;
    assert forall j | 0 <= j < |xs[1..]| :: xs[1..][j] == xs[j + 1];
  }

  lemma {:induction false} PendingIs(a: nat, b: nat)
    requires a <= b
    ensures forall i: nat :: i in Pending(a, b) <==> a <= i < b
  {
    forall i: nat | a <= i < b
      ensures i in Pending(a, b)
    {
      assert Pending(a, b)[i - a] == i;
    }
  }

  lemma {:induction false} KnownKept(st: State, m: Places, e: Event)
    requires Placed(st, m)
    ensures Known(Apply(st, e), Moved(st, m, e))
  {
    hide GateAfter, StartsAfter, SupsAfter, BookAfter, AllAt, Staying, Own;
    if Enabled(st, e) && (e.Skip? || e.Drop? || e.Admit?) {
      HeadIs(st, m, e.s);
    } else if e.Start? && Enabled(st, e) {
      PendingIs(st.queue.started, st.queue.entries);
    }
  }

  lemma {:induction false} PlacedParts(st: State, m: Places, s: Key, v: Key, i: nat)
    requires Placed(st, m)
    ensures i in m <==> i < st.queue.started
    ensures i in m ==> IsAt(st, m[i], i)
    ensures s in st.starts ==> Rising(st.starts[s].pending)
    ensures s in st.starts && i in st.starts[s].pending ==> i in m && m[i] == AtStart(s)
    ensures v in st.sups ==> st.sups[v].entry in m && m[st.sups[v].entry] == AtSup(v)
  {
    hide IsAt, Rising;
  }

  /** The event takes the first entry from the start. */
  predicate Takes(st: State, e: Event, s: Key) {
    Enabled(st, e) && (e.Skip? || e.Drop? || e.Admit?) && e.s == s
  }

  /** What an event does to the rest of a start. */
  lemma {:induction false} PendingAfter(st: State, e: Event, s: Key)
    requires s in Apply(st, e).starts
    ensures var t := Apply(st, e);
            if e == Start(s) && Enabled(st, e) then
              s !in st.starts && t.starts[s].pending == Pending(st.queue.started, st.queue.entries)
            else
              && s in st.starts
              && (Takes(st, e, s) ==> HasNext(st, s) && t.starts[s].pending == st.starts[s].pending[1..])
              && (!Takes(st, e, s) ==> t.starts[s].pending == st.starts[s].pending)
  {
    hide GateAfter, QueueAfter, SupsAfter, BookAfter;
  }

  /** Where an event leaves an entry. */
  lemma {:induction false} MovedAt(st: State, m: Places, e: Event, i: nat)
    requires i in m && Placed(st, m)
    ensures i in Moved(st, m, e)
    ensures Moved(st, m, e)[i] == m[i]
         || (Enabled(st, e) && (e.Skip? || e.Drop? || e.Admit?) && st.starts[e.s].pending[0] == i)
         || (Enabled(st, e) && e.Leave? && st.sups[e.v].entry == i)
  {
    hide AllAt, Own, Supervised, Staying;
  }

  lemma {:induction false} OwnAt(st: State, m: Places, e: Event, s: Key, i: nat)
    requires Placed(st, m) && s in Apply(st, e).starts && i in Apply(st, e).starts[s].pending
    ensures i in Moved(st, m, e) && Moved(st, m, e)[i] == AtStart(s)
  {
    hide Placed, Apply, Rising;
    PendingAfter(st, e, s);
    if e == Start(s) && Enabled(st, e) {
      StartPlaces(st, m, s, i);
    } else {
      assert i in st.starts[s].pending;
      PlacedParts(st, m, s, 0, i);
      MovedAt(st, m, e, i);
      if Moved(st, m, e)[i] != AtStart(s) {
        if e.Leave? {
          PlacedParts(st, m, 0, e.v, i);
        } else {
          HeadIs(st, m, e.s);
        }
      }
    }
  }

  lemma {:induction false} StartPlaces(st: State, m: Places, s: Key, i: nat)
    requires Enabled(st, Start(s)) && i in Pending(st.queue.started, st.queue.entries)
    ensures i in Moved(st, m, Start(s)) && Moved(st, m, Start(s))[i] == AtStart(s)
  {
  }

  lemma {:induction false} RisingAt(st: State, m: Places, e: Event, s: Key)
    requires Placed(st, m) && s in Apply(st, e).starts
    ensures Rising(Apply(st, e).starts[s].pending)
  {
    hide Placed, Apply;
    PendingAfter(st, e, s);
    PlacedParts(st, m, s, 0, 0);
    if Enabled(st, e) && (e.Skip? || e.Drop? || e.Admit?) {
      HeadIs(st, m, e.s);
    }
  }

  lemma {:induction false} OwnKept(st: State, m: Places, e: Event)
    requires Placed(st, m)
    ensures Own(Apply(st, e), Moved(st, m, e))
  {
    hide Placed, Apply, Rising, Moved;
    var t, n := Apply(st, e), Moved(st, m, e);
    forall s | s in t.starts
      ensures Rising(t.starts[s].pending)
    {
      RisingAt(st, m, e, s);
    }
    forall s, i | s in t.starts && i in t.starts[s].pending
      ensures i in n && n[i] == AtStart(s)
    {
      OwnAt(st, m, e, s, i);
    }
  }

  // ----- supervisors -----

  lemma {:induction false} EntryAfter(st: State, e: Event, v: Key)
    requires v in Apply(st, e).sups
    ensures var t := Apply(st, e);
            || (v in st.sups && t.sups[v].entry == st.sups[v].entry && !(Enabled(st, e) && e == Leave(v)))
            || (e.Admit? && e.v == v && Enabled(st, e) && t.sups[v].entry == st.starts[e.s].pending[0])
  {
    hide GateAfter, QueueAfter, StartsAfter, BookAfter;
  }

  lemma {:induction false} SupervisedAt(st: State, m: Places, e: Event, v: Key)
    requires Placed(st, m) && v in Apply(st, e).sups
    ensures var i := Apply(st, e).sups[v].entry; i in Moved(st, m, e) && Moved(st, m, e)[i] == AtSup(v)
  {
    hide Placed, Apply;
    EntryAfter(st, e, v);
    if e.Admit? && e.v == v && Enabled(st, e) && v !in st.sups {
      HeadIs(st, m, e.s);
    } else {
      var i := st.sups[v].entry;
      PlacedParts(st, m, 0, v, i);
      MovedAt(st, m, e, i);
      if Enabled(st, e) && (e.Skip? || e.Drop? || e.Admit?) {
        HeadIs(st, m, e.s);
      }
      if Enabled(st, e) && e.Leave? {
        PlacedParts(st, m, 0, e.v, i);
      }
    }
  }

  lemma {:induction false} SupervisedKept(st: State, m: Places, e: Event)
    requires Placed(st, m)
    ensures Supervised(Apply(st, e), Moved(st, m, e))
  {
    hide Placed, Apply, Moved;
    forall v | v in Apply(st, e).sups
      ensures var i := Apply(st, e).sups[v].entry; i in Moved(st, m, e) && Moved(st, m, e)[i] == AtSup(v)
    {
      SupervisedAt(st, m, e, v);
    }
  }

  // ----- every entry -----

  lemma {:induction false} StaysInStart(st: State, m: Places, e: Event, s: Key, i: nat)
    requires Placed(st, m) && i in m && m[i] == AtStart(s) && i in Moved(st, m, e) && Moved(st, m, e)[i] == AtStart(s)
    ensures IsAt(Apply(st, e), AtStart(s), i)
  {
    hide Placed, Apply, Rising;
    PlacedParts(st, m, s, 0, i);
    StartRemains(st, e, s);
    PendingAfter(st, e, s);
    if Takes(st, e, s) {
      TailHolds(st.starts[s].pending, i);
    }
  }

  lemma {:induction false} StartRemains(st: State, e: Event, s: Key)
    requires s in st.starts && st.starts[s].pending != []
    ensures s in Apply(st, e).starts
  {
    hide GateAfter, QueueAfter, SupsAfter, BookAfter;
  }

  lemma {:induction false} StaysSupervised(st: State, m: Places, e: Event, v: Key, i: nat)
    requires Placed(st, m) && i in m && m[i] == AtSup(v) && i in Moved(st, m, e) && Moved(st, m, e)[i] == AtSup(v)
    ensures IsAt(Apply(st, e), AtSup(v), i)
  {
    hide Placed, GateAfter, QueueAfter, StartsAfter, BookAfter, Rising;
    PlacedParts(st, m, 0, v, i);
  }

  lemma {:induction false} FlagsStay(st: State, e: Event)
    ensures st.gate.closed ==> Apply(st, e).gate.closed
    ensures st.gate.cancelled ==> Apply(st, e).gate.cancelled
  {
    hide QueueAfter, StartsAfter, SupsAfter, BookAfter;
  }

  lemma {:induction false} StaysAt(st: State, m: Places, e: Event, i: nat)
    requires Placed(st, m) && i in m && i in Moved(st, m, e) && Moved(st, m, e)[i] == m[i]
    ensures IsAt(Apply(st, e), m[i], i)
  {
    hide Placed, Apply, Moved;
    PlacedParts(st, m, 0, 0, i);
    match m[i] {
      case AtStart(s) => StaysInStart(st, m, e, s, i);
      case AtSup(v) => StaysSupervised(st, m, e, v, i);
      case _ => FlagsStay(st, e);
    }
  }

  /** An entry that is moved arrives. */
  lemma {:induction false} ArrivesAt(st: State, m: Places, e: Event, i: nat)
    requires Staying(st) && Enabled(st, e)
    requires ((e.Skip? || e.Drop? || e.Admit?) && st.starts[e.s].pending[0] == i)
             || (e.Leave? && st.sups[e.v].entry == i)
    ensures i in Moved(st, m, e) && IsAt(Apply(st, e), Moved(st, m, e)[i], i)
  {
    hide QueueAfter, StartsAfter, BookAfter;
  }

  lemma {:induction false} BeginsAt(st: State, m: Places, e: Event, i: nat)
    requires i !in m && i in Moved(st, m, e) && Placed(st, m)
    ensures IsAt(Apply(st, e), Moved(st, m, e)[i], i)
  {
    hide Placed, GateAfter, QueueAfter, SupsAfter, BookAfter;
    if Enabled(st, e) && (e.Skip? || e.Drop? || e.Admit?) {
      HeadIs(st, m, e.s);
    } else if Enabled(st, e) && e.Leave? {
      PlacedParts(st, m, 0, e.v, i);
    }
  }

  lemma {:induction false} AllAtKept(st: State, m: Places, e: Event)
    requires Placed(st, m)
    ensures AllAt(Apply(st, e), Moved(st, m, e))
  {
    hide Apply, Moved, IsAt, Known, AllAt, Own, Supervised, Staying;
    var t, n := Apply(st, e), Moved(st, m, e);
    forall i | i in n
      ensures IsAt(t, n[i], i)
    {
      if i !in m {
        BeginsAt(st, m, e, i);
      } else {
        MovedAt(st, m, e, i);
        if n[i] == m[i] {
          StaysAt(st, m, e, i);
        } else {
          ArrivesAt(st, m, e, i);
        }
      }
    }
    AllAtByEach(t, n);
  }

  lemma {:induction false} AllAtByEach(st: State, m: Places)
    requires forall i | i in m :: IsAt(st, m[i], i)
    ensures AllAt(st, m)
  {
  }

  lemma {:induction false} PlacedKept(st: State, m: Places, e: Event)
    requires Placed(st, m)
    ensures Placed(Apply(st, e), Moved(st, m, e))
  {
    hide Apply, Moved, Known, AllAt, Own, Supervised, Staying;
    KnownKept(st, m, e);
    AllAtKept(st, m, e);
    OwnKept(st, m, e);
    SupervisedKept(st, m, e);
    StayingKept(st, e);
  }

  lemma {:induction false} RunPlaced(st: State, m: Places, es: seq<Event>)
    requires Placed(st, m)
    ensures Placed(Run(st, es), MovedAll(st, m, es))
    decreases |es|
  {
    hide Apply, Moved, Placed;
    if es != [] {
      PlacedKept(st, m, es[0]);
      RunPlaced(Apply(st, es[0]), Moved(st, m, es[0]), es[1..]);
    }
  }

  /** However the calls interleave, each entry that was taken is in one place, and nowhere
      else: to be done by one start, supervised by one supervisor, or done with. It is dropped
      only once the manager is closed, and its supervisor leaves only once shutdown has begun. */
  lemma {:induction false} EachEntryInOnePlace(es: seq<Event>, i: nat)
    requires i < Run(INITIAL, es).queue.started
    ensures var st, m := Run(INITIAL, es), MovedAll(INITIAL, map[], es);
            && i in m && IsAt(st, m[i], i)
            && (forall s | s in st.starts && i in st.starts[s].pending :: m[i] == AtStart(s))
            && (forall v | v in st.sups && st.sups[v].entry == i :: m[i] == AtSup(v))
            && (!st.gate.closed ==> m[i].AtStart? || m[i].AtSup? || m[i].Skipped?)
  {
    hide Run, MovedAll, Rising, Staying;
    NothingPlaced();
    RunPlaced(INITIAL, map[], es);
    InitialOk();
    RunKeeps(INITIAL, es);
  }
  lemma {:induction false} NothingPlaced()
    ensures Placed(INITIAL, map[])
  {
  }

  lemma {:induction false} TailHolds(xs: seq<nat>, i: nat)
    requires i in xs && xs[0] != i
    ensures i in xs[1..]
  {
    var k :| 0 <= k < |xs| && xs[k] == i;
    assert xs[1..][k - 1] == i;
  }

  // ----- consumed again -----

  /** What a supervisor does until it consumes. */
  function Restart(v: Key, phase: Phase): seq<Event> {
    match phase
    case Running(_) => []
    case Ready(_) => [Consume(v)]
    case Down => [Recreate(v, true), Consume(v)]
    case Checking => [Check(v), Recreate(v, true), Consume(v)]
    case Returned(_) => [CloseOwn(v), Check(v), Recreate(v, true), Consume(v)]
    case Leaving => []
  }

  lemma {:induction false} RestartStep(st: State, v: Key)
    requires v in st.sups && !st.gate.cancelled && !st.sups[v].phase.Leaving? && !st.sups[v].phase.Running?
    ensures var es := Restart(v, st.sups[v].phase);
            && es != [] && Enabled(st, es[0])
            && var t := Apply(st, es[0]);
               && v in t.sups && t.sups[v].entry == st.sups[v].entry && !t.gate.cancelled && !t.sups[v].phase.Leaving?
               && es[1..] == Restart(v, t.sups[v].phase)
               && forall w | w != v :: (w in t.sups <==> w in st.sups) && (w in st.sups ==> t.sups[w] == st.sups[w])
  {
    hide QueueAfter, StartsAfter, BookAfter;
  }

  /** Before shutdown every supervisor, wherever it stands, can go on until it consumes its
      entry again, and leaves the others alone. */
  lemma {:induction false} ConsumesAgain(st: State, v: Key)
    requires v in st.sups && !st.gate.cancelled && !st.sups[v].phase.Leaving?
    ensures var t := Run(st, Restart(v, st.sups[v].phase));
            && v in t.sups && t.sups[v].entry == st.sups[v].entry && t.sups[v].phase.Running?
            && forall w | w != v :: (w in t.sups <==> w in st.sups) && (w in st.sups ==> t.sups[w] == st.sups[w])
    decreases |Restart(v, st.sups[v].phase)|
  {
    hide Apply;
    if !st.sups[v].phase.Running? {
      RestartStep(st, v);
      ConsumesAgain(Apply(st, Restart(v, st.sups[v].phase)[0]), v);
    }
  }

  /** In every run, until shutdown begins, no supervisor is leaving. */
  lemma {:induction false} NoneLeavesBefore(es: seq<Event>, v: Key)
    requires v in Run(INITIAL, es).sups && !Run(INITIAL, es).gate.cancelled
    ensures !Run(INITIAL, es).sups[v].phase.Leaving?
  {
    hide Run, MovedAll, Known, AllAt, Own, Supervised;
    assert Placed(INITIAL, map[]) by { NothingPlaced(); }
    RunPlaced(INITIAL, map[], es);
  }
}
