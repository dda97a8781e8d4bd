/**
  The consumer manager: starting, supervising and closing consumers, in every interleaving
  of the calls and of the goroutines they start.
 */
module Consumers {

  type Key = nat        // names a call of Start, or a supervisor
  type Consumer = nat   // consumers are numbered as they are created

  datatype Option<+T> = None | Some(value: T)

  // ----- the protocol -----

  /** The entries no start has taken yet. */
  function Pending(started: nat, entries: nat): (p: seq<nat>)
    requires started <= entries
    ensures |p| == entries - started && forall i | 0 <= i < |p| :: p[i] == started + i
  {
    seq(entries - started, i => started + i)
  }

  /** A call of start: the entries it has still to do, whether the first of them has been
      created, and the consumer in its hands. */
  datatype StartCall = StartCall(pending: seq<nat>, made: bool, hand: Option<Consumer>)

  /** Where a supervisor stands. */
  datatype Phase =
    | Down                      // no consumer: waiting to create one
    | Ready(c: Consumer)        // about to consume
    | Running(c: Consumer)      // consuming
    | Returned(c: Consumer)     // Consume returned, the consumer is still open
    | Checking                  // closed it, about to look for shutdown
    | Leaving                   // about to leave the wait group

  datatype Sup = Sup(entry: nat, phase: Phase)

  datatype Owner = ByStart(s: Key) | BySup(v: Key)

  /** The entries: how many there are, how many starts took, and in which order. */
  datatype Queue = Queue(entries: nat, started: nat, taken: seq<nat>)

  /** The flags of closing, and the wait group; drained once CloseContext has returned nil. */
  datatype Gate = Gate(closed: bool, cancelled: bool, waiter: bool, done: bool, drained: bool, waiting: nat)

  /** The history of the consumers: how many were created, who holds each that is open, and
      how often each was closed. */
  datatype Book = Book(created: nat, owner: map<Consumer, Owner>, closes: map<Consumer, nat>)

  datatype State = State(queue: Queue, gate: Gate, starts: map<Key, StartCall>, sups: map<Key, Sup>, book: Book)

  datatype Event =
    | Register
    | Start(s: Key)
    | Skip(s: Key)                   // an entry without a topic
    | Create(s: Key, ok: bool)
    | Admit(s: Key, v: Key)          // under the mutex: hand over to a supervisor, if not closed
    | Drop(s: Key)                   // close what cannot be handed over
    | Finish(s: Key)
    | Recreate(v: Key, ok: bool)
    | Consume(v: Key)
    | Return(v: Key)
    | CloseOwn(v: Key)
    | Check(v: Key)
    | GiveUp(v: Key)                 // shutdown ends the wait before a retry
    | Leave(v: Key)
    | Close                          // CloseContext sets closed
    | Cancel                         // the first closer cancels and starts the waiter
    | Drain                          // the waiter finds the wait group empty
    | CloseReturns                   // CloseContext returns nil

  predicate HasNext(st: State, s: Key) {
    s in st.starts && st.starts[s].pending != []
  }

  predicate Made(st: State, s: Key) {
    HasNext(st, s) && st.starts[s].made
  }

  /** What the event needs to happen. */
  predicate Enabled(st: State, e: Event) {
    match e
    case Register => true
    case Start(s) => !st.gate.closed && s !in st.starts && st.queue.started <= st.queue.entries
    case Skip(s) => HasNext(st, s) && !st.starts[s].made
    case Create(s, _) => HasNext(st, s) && !st.starts[s].made
    case Admit(s, v) => Made(st, s) && !st.gate.closed && v !in st.sups
    case Drop(s) => Made(st, s) && st.gate.closed
    case Finish(s) => s in st.starts && st.starts[s].pending == []
    case Recreate(v, ok) => v in st.sups && st.sups[v].phase.Down? && ok
    case Consume(v) => v in st.sups && st.sups[v].phase.Ready?
    case Return(v) => v in st.sups && st.sups[v].phase.Running?
    case CloseOwn(v) => v in st.sups && st.sups[v].phase.Returned?
    case Check(v) => v in st.sups && st.sups[v].phase.Checking?
    case GiveUp(v) => v in st.sups && st.sups[v].phase.Down? && st.gate.cancelled
    case Leave(v) => v in st.sups && st.sups[v].phase.Leaving? && st.gate.waiting > 0
    case Close => true
    case Cancel => st.gate.closed
    case Drain => st.gate.waiter && st.gate.waiting == 0
    case CloseReturns => st.gate.done
  }

  function QueueAfter(st: State, e: Event): Queue
    requires Enabled(st, e)
  {
    var q := st.queue;
    match e
    case Register => q.(entries := q.entries + 1)
    case Start(_) => Queue(q.entries, q.entries, q.taken + Pending(q.started, q.entries))
    case _ => q
  }

  function GateAfter(st: State, e: Event): Gate
    requires Enabled(st, e)
  {
    var g := st.gate;
    match e
    case Admit(_, _) => g.(waiting := g.waiting + 1)
    case Leave(_) => g.(waiting := g.waiting - 1)
    case Close => g.(closed := true)
    case Cancel => g.(cancelled := true, waiter := true)
    case Drain => g.(done := true)
    case CloseReturns => g.(drained := true)
    case _ => g
  }

  function Popped(call: StartCall): StartCall
    requires call.pending != []
  {
    StartCall(call.pending[1..], false, None)
  }

  function StartsAfter(st: State, e: Event): map<Key, StartCall>
    requires Enabled(st, e)
  {
    match e
    case Start(s) => st.starts[s := StartCall(Pending(st.queue.started, st.queue.entries), false, None)]
    case Skip(s) => st.starts[s := Popped(st.starts[s])]
    case Create(s, ok) =>
      st.starts[s := StartCall(st.starts[s].pending, true, if ok then Some(st.book.created) else None)]
    case Admit(s, _) => st.starts[s := Popped(st.starts[s])]
    case Drop(s) => st.starts[s := Popped(st.starts[s])]
    case Finish(s) => st.starts - {s}
    case _ => st.starts
  }

  function To(sups: map<Key, Sup>, v: Key, phase: Phase): map<Key, Sup>
    requires v in sups
  {
    sups[v := Sup(sups[v].entry, phase)]
  }

  function SupsAfter(st: State, e: Event): map<Key, Sup>
    requires Enabled(st, e)
  {
    match e
    case Admit(s, v) =>
      var call := st.starts[s];
      st.sups[v := Sup(call.pending[0], if call.hand.Some? then Ready(call.hand.value) else Down)]
    case Recreate(v, _) => To(st.sups, v, Ready(st.book.created))
    case Consume(v) => To(st.sups, v, Running(st.sups[v].phase.c))
    case Return(v) => To(st.sups, v, Returned(st.sups[v].phase.c))
    case CloseOwn(v) => To(st.sups, v, Checking)
    case Check(v) => To(st.sups, v, if st.gate.cancelled then Leaving else Down)
    case GiveUp(v) => To(st.sups, v, Leaving)
    case Leave(v) => st.sups - {v}
    case _ => st.sups
  }

  function Opened(b: Book, o: Owner): Book {
    Book(b.created + 1, b.owner[b.created := o], b.closes[b.created := 0])
  }

  function Closed(b: Book, c: Consumer): Book {
    Book(b.created, b.owner - {c}, b.closes[c := (if c in b.closes then b.closes[c] else 0) + 1])
  }

  function BookAfter(st: State, e: Event): Book
    requires Enabled(st, e)
  {
    var b := st.book;
    match e
    case Create(s, ok) => if ok then Opened(b, ByStart(s)) else b
    case Recreate(v, _) => Opened(b, BySup(v))
    case Admit(s, v) => if st.starts[s].hand.Some? then b.(owner := b.owner[st.starts[s].hand.value := BySup(v)]) else b
    case Drop(s) => if st.starts[s].hand.Some? then Closed(b, st.starts[s].hand.value) else b
    case CloseOwn(v) => Closed(b, st.sups[v].phase.c)
    case _ => b
  }

  /** The state after one event; one that cannot happen changes nothing. */
  function Apply(st: State, e: Event): State {
    if Enabled(st, e)
    then State(QueueAfter(st, e), GateAfter(st, e), StartsAfter(st, e), SupsAfter(st, e), BookAfter(st, e))
    else st
  }

  function Run(st: State, es: seq<Event>): State
    decreases |es|
  {
    if es == [] then st else Run(Apply(st, es[0]), es[1..])
  }

  const INITIAL := State(Queue(0, 0, []), Gate(false, false, false, false, false, 0), map[], map[],
                         Book(0, map[], map[]))

  // ----- entries and the wait group -----

  /** Starts have taken the entries once each, in order. */
  predicate TakenOk(st: State) {
    var q := st.queue;
    q.started <= q.entries && |q.taken| == q.started && forall i | 0 <= i < |q.taken| :: q.taken[i] == i
  }

  /** The wait group counts the supervisors; what follows from closing comes after it. */
  predicate WaitOk(st: State) {
    var g := st.gate;
    && g.waiting == |st.sups.Keys|
    && (g.waiter ==> g.closed) && g.waiter == g.cancelled
    && (g.done ==> g.waiter && g.waiting == 0)
    && (g.drained ==> g.done)
  }

  lemma {:induction false} TakenKept(st: State, e: Event)
    requires TakenOk(st)
    ensures TakenOk(Apply(st, e))
  {
    hide GateAfter, StartsAfter, SupsAfter, BookAfter;
  }

  lemma {:induction false} SupKeys(st: State, e: Event)
    requires Enabled(st, e)
    ensures SupsAfter(st, e).Keys == match e
              case Admit(_, v) => st.sups.Keys + {v}
              case Leave(v) => st.sups.Keys - {v}
              case _ => st.sups.Keys
  {
  }

  lemma {:induction false} WaitKept(st: State, e: Event)
    requires WaitOk(st)
    ensures WaitOk(Apply(st, e))
  {
    hide QueueAfter, StartsAfter, SupsAfter, BookAfter;
    if Enabled(st, e) {
      SupKeys(st, e);
    }
  }

  // ----- consumers -----

  /** The consumer a start or a supervisor holds. */
  function Held(st: State, o: Owner): Option<Consumer> {
    match o
    case ByStart(s) => if s in st.starts then st.starts[s].hand else None
    case BySup(v) =>
      if v !in st.sups then None
      else match st.sups[v].phase
        case Ready(c) => Some(c)
        case Running(c) => Some(c)
        case Returned(c) => Some(c)
        case _ => None
  }

  /** A start holds a consumer only between creating it and handing it over. */
  predicate HandsOk(st: State) {
    forall s | s in st.starts && st.starts[s].hand.Some? :: Made(st, s)
  }

  /** Each open consumer has the one holder that is recorded; each created one is open, or
      was closed exactly once. */
  ghost predicate Owned(st: State) {
    && (forall o: Owner :: Held(st, o).Some? ==>
          Held(st, o).value in st.book.owner && st.book.owner[Held(st, o).value] == o)
    && (forall c | c in st.book.owner :: Held(st, st.book.owner[c]) == Some(c))
    && (forall c :: c in st.book.closes <==> 0 <= c < st.book.created)
    && (forall c | c in st.book.owner :: c in st.book.closes)
    && (forall c | c in st.book.closes :: st.book.closes[c] == if c in st.book.owner then 0 else 1)
  }

  lemma {:induction false} HandsKept(st: State, e: Event)
    requires HandsOk(st)
    ensures HandsOk(Apply(st, e))
  {
    hide GateAfter, QueueAfter, SupsAfter, BookAfter;
  }

  /** The events that open, pass on or close a consumer. */
  predicate MovesConsumer(e: Event) {
    (e.Create? && e.ok) || e.Recreate? || e.Admit? || e.Drop? || e.CloseOwn?
  }

  lemma {:induction false} HeldSame(st: State, e: Event, o: Owner)
    requires HandsOk(st) && !MovesConsumer(e)
    ensures Held(Apply(st, e), o) == Held(st, o) && Apply(st, e).book == st.book
  {
    hide GateAfter, QueueAfter;
  }

  lemma {:induction false} OpensOne(st: State, e: Event, me: Owner)
    requires HandsOk(st) && Enabled(st, e) && (e.Create? || e.Recreate?) && MovesConsumer(e)
    requires me == if e.Create? then ByStart(e.s) else BySup(e.v)
    ensures var t := Apply(st, e);
            && t.book == Opened(st.book, me) && Held(st, me).None? && Held(t, me) == Some(st.book.created)
            && forall o: Owner | o != me :: Held(t, o) == Held(st, o)
  {
    hide GateAfter, QueueAfter;
  }

  lemma {:induction false} OpensKept(st: State, e: Event)
    requires HandsOk(st) && Owned(st) && Enabled(st, e) && (e.Create? || e.Recreate?) && MovesConsumer(e)
    ensures Owned(Apply(st, e))
  {
    hide Apply, Held, Enabled, HandsOk;
    var me := if e.Create? then ByStart(e.s) else BySup(e.v);
    OpensOne(st, e, me);
    var t := Apply(st, e);
    forall c | c in t.book.owner
      ensures Held(t, t.book.owner[c]) == Some(c)
    {
      if c != st.book.created {
        assert c in st.book.owner && Held(st, st.book.owner[c]) == Some(c);
      }
    }
  }

  lemma {:induction false} AdmitKept(st: State, e: Event)
    requires HandsOk(st) && Owned(st) && Enabled(st, e) && e.Admit?
    ensures Owned(Apply(st, e))
  {
    hide GateAfter, QueueAfter;
    var from, to := ByStart(e.s), BySup(e.v);
    var t := Apply(st, e);
    assert Held(t, to) == Held(st, from) && Held(t, from).None? && Held(st, to).None?;
    forall o: Owner | o != from && o != to
      ensures Held(t, o) == Held(st, o)
    {
    }
  }

  lemma {:induction false} ClosesOne(st: State, e: Event, me: Owner)
    requires HandsOk(st) && Enabled(st, e) && (e.Drop? || e.CloseOwn?)
    requires me == if e.Drop? then ByStart(e.s) else BySup(e.v)
    ensures var t := Apply(st, e);
            && t.book == (if Held(st, me).Some? then Closed(st.book, Held(st, me).value) else st.book)
            && Held(t, me).None?
            && forall o: Owner | o != me :: Held(t, o) == Held(st, o)
  {
    hide GateAfter, QueueAfter;
  }

  lemma {:induction false} ClosesKept(st: State, e: Event)
    requires HandsOk(st) && Owned(st) && Enabled(st, e) && (e.Drop? || e.CloseOwn?)
    ensures Owned(Apply(st, e))
  {
    hide Apply, Held, Enabled, HandsOk;
    var me := if e.Drop? then ByStart(e.s) else BySup(e.v);
    ClosesOne(st, e, me);
  }

  lemma {:induction false} OwnedKept(st: State, e: Event)
    requires HandsOk(st) && Owned(st)
    ensures Owned(Apply(st, e))
  {
    hide Held, Enabled, HandsOk;
    if !MovesConsumer(e) {
      forall o: Owner
        ensures Held(Apply(st, e), o) == Held(st, o) && Apply(st, e).book == st.book
      {
        HeldSame(st, e, o);
      }
      OwnedSame(st, Apply(st, e));
    } else if Enabled(st, e) {
      if e.Admit? {
        AdmitKept(st, e);
      } else if e.Drop? || e.CloseOwn? {
        ClosesKept(st, e);
      } else {
        OpensKept(st, e);
      }
    }
  }

  lemma {:induction false} OwnedSame(st: State, t: State)
    requires Owned(st) && t.book == st.book && forall o: Owner :: Held(t, o) == Held(st, o)
    ensures Owned(t)
  {
    hide Held;
  }

  // ----- every run -----

  ghost predicate Inv(st: State) {
    TakenOk(st) && WaitOk(st) && HandsOk(st) && Owned(st)
  }

  lemma {:induction false} RunKeeps(st: State, es: seq<Event>)
    requires Inv(st)
    ensures Inv(Run(st, es))
    decreases |es|
  {
    hide Apply, TakenOk, WaitOk, HandsOk, Owned;
    if es != [] {
      TakenKept(st, es[0]);
      WaitKept(st, es[0]);
      HandsKept(st, es[0]);
      OwnedKept(st, es[0]);
      RunKeeps(Apply(st, es[0]), es[1..]);
    }
  }

  lemma {:induction false} InitialOk()
    ensures Inv(INITIAL)
  {
  }

  /** However the calls interleave, each registered entry is taken by one start only, and
      none that a start has passed is left behind. */
  lemma {:induction false} EachEntryTakenOnce(es: seq<Event>)
    ensures var q := Run(INITIAL, es).queue;
            q.started <= q.entries && q.taken == seq(q.started, i => i)
  {
    hide Run;
    InitialOk();
    RunKeeps(INITIAL, es);
  }

  /** Every consumer ever created has been closed exactly once, or is open and held by
      exactly one start or supervisor. */
  lemma {:induction false} ClosedOnceOrHeldByOne(es: seq<Event>, c: Consumer)
    requires c < Run(INITIAL, es).book.created
    ensures var st := Run(INITIAL, es);
            && c in st.book.closes
            && (st.book.closes[c] == 1 || st.book.closes[c] == 0)
            && (st.book.closes[c] == 1 ==> forall o: Owner :: Held(st, o) != Some(c))
            && (st.book.closes[c] == 0 ==>
                  c in st.book.owner && forall o: Owner :: Held(st, o) == Some(c) <==> o == st.book.owner[c])
  {
    hide Run, Held;
    InitialOk();
    RunKeeps(INITIAL, es);
  }

  lemma {:induction false} RunConcat(st: State, a: seq<Event>, b: seq<Event>)
    ensures Run(st, a + b) == Run(Run(st, a), b)
    decreases |a|
  {
    hide Apply;
    if a == [] {
      assert a + b == b;
    } else {
      assert (a + b)[1..] == a[1..] + b;
      RunConcat(Apply(st, a[0]), a[1..], b);
    }
  }

  lemma {:induction false} DrainedStays(st: State, es: seq<Event>)
    requires st.gate.drained
    ensures Run(st, es).gate.drained
    decreases |es|
  {
    if es != [] {
      DrainedStep(st, es[0]);
      DrainedStays(Apply(st, es[0]), es[1..]);
    }
  }

  lemma {:induction false} DrainedStep(st: State, e: Event)
    requires st.gate.drained
    ensures Apply(st, e).gate.drained
  {
    hide Enabled, QueueAfter, StartsAfter, SupsAfter, BookAfter;
  }

  /** Once CloseContext has returned nil there is no supervisor, running or not, and there
      never will be one again. */
  lemma {:induction false} NothingRunsAfterClose(es: seq<Event>, more: seq<Event>)
    requires Run(INITIAL, es).gate.drained
    ensures Run(INITIAL, es + more).sups == map[]
  {
    hide Run, Owned, HandsOk;
    InitialOk();
    RunConcat(INITIAL, es, more);
    DrainedStays(Run(INITIAL, es), more);
    RunKeeps(INITIAL, es + more);
    var st := Run(INITIAL, es + more);
    assert st.sups.Keys == {};
  }

  // ----- closing can finish -----

  /** What a supervisor does next once shutdown has begun. */
  function NextStep(v: Key, phase: Phase): Event {
    match phase
    case Down => GiveUp(v)
    case Ready(_) => Consume(v)
    case Running(_) => Return(v)
    case Returned(_) => CloseOwn(v)
    case Checking => Check(v)
    case Leaving => Leave(v)
  }

  function StepsLeft(phase: Phase): nat {
    match phase
    case Ready(_) => 4
    case Running(_) => 3
    case Returned(_) => 2
    case Checking => 1
    case Down => 1
    case Leaving => 0
  }

  /** No supervisor is stuck: its next step can be taken, and brings it closer to leaving. */
  lemma {:induction false} SupervisorsCanLeave(st: State, v: Key)
    requires WaitOk(st) && st.gate.cancelled && v in st.sups
    ensures var e, phase := NextStep(v, st.sups[v].phase), st.sups[v].phase;
            && Enabled(st, e) && Apply(st, e).gate.cancelled
            && (phase.Leaving? ==> Apply(st, e).sups == st.sups - {v})
            && (!phase.Leaving? ==>
                  && v in Apply(st, e).sups && Apply(st, e).sups == To(st.sups, v, Apply(st, e).sups[v].phase)
                  && StepsLeft(Apply(st, e).sups[v].phase) < StepsLeft(phase))
  {
    hide QueueAfter, StartsAfter, BookAfter;
    assert v in st.sups.Keys;
    assert st.sups.Keys != {};
  }

  lemma {:induction false} OneLeaves(st: State, v: Key) returns (more: seq<Event>)
    requires WaitOk(st) && st.gate.cancelled && v in st.sups
    ensures var t := Run(st, more); WaitOk(t) && t.gate.cancelled && t.sups == st.sups - {v}
    decreases StepsLeft(st.sups[v].phase)
  {
    hide WaitOk, Apply, Run, To;
    var e := NextStep(v, st.sups[v].phase);
    var t := Apply(st, e);
    SupervisorsCanLeave(st, v);
    WaitKept(st, e);
    var rest: seq<Event> := [];
    if !st.sups[v].phase.Leaving? {
      rest := OneLeaves(t, v);
      ToThenGone(st.sups, v, t.sups[v].phase);
    }
    more := [e] + rest;
    RunCons(st, e, rest);
  }

  lemma {:induction false} ToThenGone(sups: map<Key, Sup>, v: Key, phase: Phase)
    requires v in sups
    ensures To(sups, v, phase) - {v} == sups - {v}
  {
  }

  lemma {:induction false} RunCons(st: State, e: Event, rest: seq<Event>)
    ensures Run(st, [e] + rest) == Run(Apply(st, e), rest)
    ensures Run(st, []) == st && Run(Apply(st, e), []) == Apply(st, e)
  {
    hide Apply;
    assert ([e] + rest)[1..] == rest;
  }

  lemma {:induction false} AllLeave(st: State) returns (more: seq<Event>)
    requires WaitOk(st) && st.gate.cancelled
    ensures var t := Run(st, more); WaitOk(t) && t.gate.cancelled && t.sups == map[]
    decreases |st.sups|
  {
    hide WaitOk, Apply, Run;
    if st.sups == map[] {
      more := [];
      RunCons(st, Close, []);
    } else {
      var v :| v in st.sups;
      var first := OneLeaves(st, v);
      var t := Run(st, first);
      assert t.sups.Keys == st.sups.Keys - {v} && v in st.sups.Keys;
      assert |t.sups| == |t.sups.Keys| && |st.sups| == |st.sups.Keys|;
      var rest := AllLeave(t);
      more := first + rest;
      RunConcat(st, first, rest);
    }
  }

  lemma {:induction false} LastSteps(st: State)
    requires WaitOk(st) && st.gate.cancelled && st.sups == map[]
    ensures Run(st, [Drain, CloseReturns]).gate.drained
  {
    hide QueueAfter, StartsAfter, SupsAfter, BookAfter, Run;
    var t := Apply(st, Drain);
    RunCons(st, Drain, [CloseReturns]);
    RunCons(t, CloseReturns, []);
    assert [Drain] + [CloseReturns] == [Drain, CloseReturns] && [CloseReturns] + [] == [CloseReturns];
  }

  /** Wherever a run stands when shutdown begins, it can be continued until CloseContext
      returns nil. */
  lemma {:induction false} CloseCanFinish(es: seq<Event>)
    requires Run(INITIAL, es).gate.cancelled
    ensures exists more: seq<Event> :: Run(INITIAL, es + more).gate.drained
  {
    hide Run, Inv, WaitOk;
    InitialOk();
    RunKeeps(INITIAL, es);
    var st := Run(INITIAL, es);
    assert WaitOk(st) by { InvParts(st); }
    var first := AllLeave(st);
    var last := [Drain, CloseReturns];
    LastSteps(Run(st, first));
    RunConcat(st, first, last);
    RunConcat(INITIAL, es, first + last);
    assert Run(INITIAL, es + (first + last)).gate.drained;
  }

  lemma {:induction false} InvParts(st: State)
    requires Inv(st)
    ensures TakenOk(st) && WaitOk(st) && HandsOk(st) && Owned(st)
  {
  }
}
