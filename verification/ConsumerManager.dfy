/**
  The consumer manager as an object: its fields, and the critical sections that change
  them. Every method is one step of the protocol of Consumers, so that what holds in every
  run of the protocol holds of the object.
 */
module ConsumerManager {
  import opened Consumers

  class Manager {
    var entries: nat      // how many consumers are registered
    var started: nat      // how many of them were taken by a start
    var closed: bool
    var cancelled: bool   // the context of the supervisors has ended
    var done: bool        // the wait group was found empty
    var waiting: nat      // the wait group

    /** The steps taken so far, by this object and by the goroutines it started. */
    ghost var steps: seq<Event>

    ghost function St(): State
      reads this
    {
      Run(INITIAL, steps)
    }

    ghost predicate Valid()
      reads this
    {
      && St().queue.entries == entries && St().queue.started == started
      && var g := St().gate; g.closed == closed && g.cancelled == cancelled && g.done == done && g.waiting == waiting
    }

    constructor ()
      ensures Valid() && steps == []
    {
      entries, started, closed, cancelled, done, waiting := 0, 0, false, false, false, 0;
      steps := [];
    }

    method Register()
      requires Valid()
      modifies this`entries, this`steps
      ensures Valid() && steps == old(steps) + [Event.Register]
    {
      entries := entries + 1;
      steps := steps + [Event.Register];
      Grows(old(steps), Event.Register);
      RegisterStep(old(St()));
    }

    /** The first critical section of start: a call that takes entries takes those that no
        call before it took. */
    method Take(ghost s: Key) returns (pending: Option<seq<nat>>)
      requires Valid() && s !in St().starts
      modifies this`started, this`steps
      ensures Valid() && (pending.None? <==> closed)
      ensures steps == if closed then old(steps) else old(steps) + [Start(s)]
      ensures pending.Some? ==> && s in St().starts && St().starts[s] == StartCall(pending.value, false, None)
                                && St().queue.taken == old(St().queue.taken) + pending.value
                                && forall e | e in pending.value :: e !in old(St().queue.taken)
    {
      Reached(steps);
      if closed {
        return None;
      }
      pending := Some(Pending(started, entries));
      started := entries;
      steps := steps + [Start(s)];
      Grows(old(steps), Start(s));
      StartStep(old(St()), s);
    }

    /** The second: a consumer is admitted to supervision, or closed when the manager has
        closed meanwhile. Either way the call no longer holds it. */
    method Admit(ghost s: Key, ghost v: Key) returns (ok: bool)
      requires Valid() && Made(St(), s) && v !in St().sups
      modifies this`waiting, this`steps
      ensures Valid() && ok == !closed
      ensures steps == old(steps) + [if ok then Event.Admit(s, v) else Drop(s)]
      ensures Held(St(), ByStart(s)).None?
      ensures ok ==> Held(St(), BySup(v)) == old(Held(St(), ByStart(s)))
      ensures !ok ==> St().sups == old(St().sups)
    {
      if closed {
        steps := steps + [Drop(s)];
        Grows(old(steps), Drop(s));
        DropStep(old(St()), s);
        return false;
      }
      waiting := waiting + 1;
      steps := steps + [Event.Admit(s, v)];
      Grows(old(steps), Event.Admit(s, v));
      AdmitStep(old(St()), s, v);
      return true;
    }

    /** A step outside the mutex, of a start or of a supervisor. */
    ghost method Elsewhere(e: Event)
      requires Valid() && Outside(e)
      modifies this`steps
      ensures Valid() && steps == old(steps) + [e]
    {
      steps := steps + [e];
      Grows(old(steps), e);
      OutsideStep(old(St()), e);
    }

    /** The end of a supervisor. */
    method Leave(ghost v: Key)
      requires Valid() && v in St().sups && St().sups[v].phase.Leaving?
      modifies this`waiting, this`steps
      ensures Valid() && steps == old(steps) + [Event.Leave(v)]
    {
      Reached(steps);
      LeaveStep(St(), v);
      waiting := waiting - 1;
      steps := steps + [Event.Leave(v)];
      Grows(old(steps), Event.Leave(v));
    }

    /** The critical section of CloseContext, and what the first closer does after it. */
    method BeginClose() returns (first: bool)
      requires Valid()
      modifies this`closed, this`cancelled, this`steps
      ensures Valid() && closed && first == !old(closed)
      ensures steps == old(steps) + (if first then [Close, Cancel] else [Close])
    {
      first := !closed;
      closed := true;
      steps := steps + [Close];
      Grows(old(steps), Close);
      CloseStep(old(St()));
      if first {
        ghost var t := St();
        ghost var before := steps;
        cancelled := true;
        steps := steps + [Cancel];
        Grows(before, Cancel);
        CancelStep(t);
        assert steps == old(steps) + [Close, Cancel];
      }
    }

    /** The goroutine that waits for the wait group, once it is empty. */
    method FinishWait()
      requires Valid() && cancelled && waiting == 0
      modifies this`done, this`steps
      ensures Valid() && done && steps == old(steps) + [Drain]
    {
      Reached(steps);
      done := true;
      steps := steps + [Drain];
      Grows(old(steps), Drain);
      DrainStep(old(St()));
    }

    /** The select of CloseContext: it returns nil when the wait is over, an error when the
        caller's time is up, and either when both hold. After nil there is no supervisor,
        whatever steps follow. */
    method AwaitDrain(expired: bool, first: bool) returns (nil: bool)
      requires Valid() && (done || expired)
      modifies this`steps
      ensures Valid() && nil == (done && (!expired || first))
      ensures steps == if nil then old(steps) + [CloseReturns] else old(steps)
      ensures nil ==> forall more: seq<Event> :: Run(INITIAL, steps + more).sups == map[]
    {
      nil := done && (!expired || first);
      if nil {
        steps := steps + [CloseReturns];
        Grows(old(steps), CloseReturns);
        ReturnStep(old(St()));
        forall more: seq<Event>
          ensures Run(INITIAL, steps + more).sups == map[]
        {
          NothingRunsAfterClose(steps, more);
        }
      }
    }
  }

  // ----- one step of the protocol -----

  lemma {:induction false} Grows(es: seq<Event>, e: Event)
    ensures Run(INITIAL, es + [e]) == Apply(Run(INITIAL, es), e)
  {
    hide Apply, Run;
    RunConcat(INITIAL, es, [e]);
    RunCons(Run(INITIAL, es), e, []);
    assert [e] + [] == [e];
  }

  lemma {:induction false} Reached(es: seq<Event>)
    ensures var st := Run(INITIAL, es); TakenOk(st) && WaitOk(st) && HandsOk(st)
  {
    hide Run, TakenOk, WaitOk, HandsOk, Owned;
    InitialOk();
    RunKeeps(INITIAL, es);
  }

  /** The steps that leave the fields alone. */
  predicate Outside(e: Event) {
    || e.Skip? || e.Create? || e.Finish?
    || e.Recreate? || e.Consume? || e.Return? || e.CloseOwn? || e.Check? || e.GiveUp?
  }

  lemma {:induction false} OutsideStep(st: State, e: Event)
    requires Outside(e)
    ensures Apply(st, e).queue == st.queue && Apply(st, e).gate == st.gate
  {
    hide StartsAfter, SupsAfter, BookAfter;
  }

  lemma {:induction false} RegisterStep(st: State)
    ensures var t := Apply(st, Event.Register);
            t.queue == st.queue.(entries := st.queue.entries + 1) && t.gate == st.gate
  {
  }

  lemma {:induction false} StartStep(st: State, s: Key)
    requires TakenOk(st) && !st.gate.closed && s !in st.starts
    ensures var t, pending := Apply(st, Start(s)), Pending(st.queue.started, st.queue.entries);
            && t.gate == st.gate && t.queue == Queue(st.queue.entries, st.queue.entries, st.queue.taken + pending)
            && s in t.starts && t.starts[s] == StartCall(pending, false, None)
            && forall e | e in pending :: e !in st.queue.taken
  {
  }

  lemma {:induction false} AdmitStep(st: State, s: Key, v: Key)
    requires Made(st, s) && !st.gate.closed && v !in st.sups
    ensures var t := Apply(st, Event.Admit(s, v));
            && t.queue == st.queue && t.gate == st.gate.(waiting := st.gate.waiting + 1)
            && Held(t, BySup(v)) == Held(st, ByStart(s)) && Held(t, ByStart(s)).None?
  {
  }

  lemma {:induction false} DropStep(st: State, s: Key)
    requires Made(st, s) && st.gate.closed
    ensures var t := Apply(st, Drop(s));
            t.queue == st.queue && t.gate == st.gate && t.sups == st.sups && Held(t, ByStart(s)).None?
  {
  }

  lemma {:induction false} LeaveStep(st: State, v: Key)
    requires WaitOk(st) && v in st.sups && st.sups[v].phase.Leaving?
    ensures var t := Apply(st, Event.Leave(v));
            st.gate.waiting > 0 && t.queue == st.queue && t.gate == st.gate.(waiting := st.gate.waiting - 1)
  {
    assert v in st.sups.Keys;
    assert st.sups.Keys != {};
  }

  lemma {:induction false} CloseStep(st: State)
    ensures var t := Apply(st, Close); t.queue == st.queue && t.gate == st.gate.(closed := true)
  {
  }

  lemma {:induction false} CancelStep(st: State)
    requires st.gate.closed
    ensures var t := Apply(st, Cancel); t.queue == st.queue && t.gate == st.gate.(cancelled := true, waiter := true)
  {
  }

  lemma {:induction false} DrainStep(st: State)
    requires WaitOk(st) && st.gate.cancelled && st.gate.waiting == 0
    ensures var t := Apply(st, Drain); t.queue == st.queue && t.gate == st.gate.(done := true)
  {
  }

  lemma {:induction false} ReturnStep(st: State)
    requires st.gate.done
    ensures var t := Apply(st, CloseReturns); t.queue == st.queue && t.gate == st.gate.(drained := true)
  {
  }
}
