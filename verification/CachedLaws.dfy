/**
  What the cache is for: concurrent misses are one fetch, whose answer everyone who waited
  is given; a value is served from the cache until it is evicted; a missing row and an
  error are not stored. And which arguments have a key.
 */
module CachedLaws {
  import opened CacheKey
  import opened Cached

  // ----- one fetch for all -----

  predicate Misses(h: Hash, slot: Slot, e: Event) {
    e.Join? && Cacheable(e.r) && SlotOf(h, e.r) == slot
  }

  /** Those who missed the slot, in order. */
  function Missed(h: Hash, slot: Slot, es: seq<Event>): seq<Lookup> {
    if es == [] then []
    else (if Misses(h, slot, es[0]) then [es[0].r.lookup] else []) + Missed(h, slot, es[1..])
  }

  /** The fetch for the slot is not over. */
  predicate Ends(slot: Slot, e: Event) {
    (e.Land? && e.slot == slot) || (e.Fail? && e.slot == slot)
  }

  predicate NeverEnds(slot: Slot, es: seq<Event>) {
    forall i | 0 <= i < |es| :: !Ends(slot, es[i])
  }

  /** The fetches for the slot begun by the events: a miss begins one when none is under way. */
  function Fetches(h: Hash, s: State, slot: Slot, es: seq<Event>): nat
    decreases |es|
  {
    if es == [] then 0
    else (if slot !in s.flights && slot in Apply(h, s, es[0]).flights then 1 else 0)
         + Fetches(h, Apply(h, s, es[0]), slot, es[1..])
  }

  /** Those who lead and wait for the fetch of the slot, in order. */
  function Aboard(s: State, slot: Slot): seq<Lookup> {
    if slot in s.flights then [s.flights[slot].leader] + s.flights[slot].waiting else []
  }

  lemma {:induction false} OneAboard(h: Hash, s: State, slot: Slot, e: Event)
    requires !Ends(slot, e)
    ensures Aboard(Apply(h, s, e), slot) == Aboard(s, slot) + if Misses(h, slot, e) then [e.r.lookup] else []
    ensures slot in Apply(h, s, e).flights <==> slot in s.flights || Misses(h, slot, e)
  {
    hide Material, Keyed;
  }

  lemma {:induction false} AllAboard(h: Hash, s: State, slot: Slot, es: seq<Event>)
    requires NeverEnds(slot, es)
    ensures Aboard(Run(h, s, es), slot) == Aboard(s, slot) + Missed(h, slot, es)
    ensures slot in Run(h, s, es).flights <==> slot in s.flights || Missed(h, slot, es) != []
    ensures Fetches(h, s, slot, es) == if slot !in s.flights && Missed(h, slot, es) != [] then 1 else 0
    decreases |es|
  {
    hide Apply, Misses, Aboard;
    if es == [] {
      assert Aboard(s, slot) + [] == Aboard(s, slot);
    } else {
      assert !Ends(slot, es[0]);
      OneAboard(h, s, slot, es[0]);
      AllAboard(h, Apply(h, s, es[0]), slot, es[1..]);
    }
  }

  /** Concurrent misses of a slot are one fetch; when it lands, everyone who missed is given
      its answer, and a value is stored; a failure serves and stores nothing. */
  lemma {:induction false} OneFetchForAll(h: Hash, s: State, slot: Slot, es: seq<Event>, fetched: Option<nat>)
    requires slot !in s.flights && NeverEnds(slot, es)
    ensures var t, missed := Run(h, s, es), Missed(h, slot, es);
            var landed, failed := Apply(h, t, Land(slot, fetched)), Apply(h, t, Fail(slot));
            && Fetches(h, s, slot, es) == (if missed == [] then 0 else 1)
            && slot !in landed.flights && slot !in failed.flights
            && failed.served == t.served && failed.stored == t.stored
            && (missed != [] ==>
                  && var a := Answer(missed[0], fetched);
                     && landed.served == t.served + seq(|missed|, i requires 0 <= i < |missed| => (missed[i], a))
                     && landed.stored == if fetched.Some? then t.stored[slot := a] else t.stored)
  {
    hide Run, Missed, Fetches;
    AllAboard(h, s, slot, es);
    var t, missed := Run(h, s, es), Missed(h, slot, es);
    assert [] + missed == missed;
    if missed != [] {
      var a := Answer(missed[0], fetched);
      assert ServeAll(missed, a) == seq(|missed|, i requires 0 <= i < |missed| => (missed[i], a));
    }
  }

  // ----- hits -----

  predicate Drops(slot: Slot, e: Event) {
    (e.Evict? && e.slot == slot) || (e.Land? && e.slot == slot)
  }

  lemma {:induction false} StaysStored(h: Hash, s: State, slot: Slot, es: seq<Event>)
    requires slot in s.stored && forall i | 0 <= i < |es| :: !Drops(slot, es[i])
    ensures slot in Run(h, s, es).stored && Run(h, s, es).stored[slot] == s.stored[slot]
    decreases |es|
  {
    if es != [] {
      assert !Drops(slot, es[0]);
      StoredStep(h, s, slot, es[0]);
      StaysStored(h, Apply(h, s, es[0]), slot, es[1..]);
    }
  }

  lemma {:induction false} StoredStep(h: Hash, s: State, slot: Slot, e: Event)
    requires slot in s.stored && !Drops(slot, e)
    ensures slot in Apply(h, s, e).stored && Apply(h, s, e).stored[slot] == s.stored[slot]
  {
    hide Material, Keyed;
  }

  /** Until it is evicted or fetched again, a stored answer is what every request for it is
      given, and no fetch is begun. */
  lemma {:induction false} HitsAreServed(h: Hash, s: State, es: seq<Event>, r: Request, fetched: Option<nat>)
    requires Cacheable(r) && SlotOf(h, r) in s.stored
    requires forall i | 0 <= i < |es| :: !Drops(SlotOf(h, r), es[i])
    ensures var t := Run(h, s, es);
            var u := Apply(h, t, Ask(r, fetched));
            && u.served == t.served + [(r.lookup, s.stored[SlotOf(h, r)])]
            && u.flights == t.flights && u.stored == t.stored
  {
    hide Run, Material, Keyed;
    StaysStored(h, s, SlotOf(h, r), es);
  }

  // ----- which arguments have a key -----

  /** The arguments with the lists among them opened. */
  function Atoms(args: seq<Arg>): seq<Arg> {
    if args == [] then []
    else (match args[0]
          case List(_, items) => Atoms(items)
          case _ => [args[0]]) + Atoms(args[1..])
  }

  lemma {:induction false} AtomsAll(args: seq<Arg>)
    requires AllFit(args)
    ensures (forall i | 0 <= i < |args| :: Encodable(args[i])) <==> Opaque !in Atoms(args)
    decreases args
  {
    if args != [] {
      var a, rest := args[0], args[1..];
      assert forall i | 0 <= i < |rest| :: rest[i] == args[i + 1];
      assert forall i | 0 < i < |args| :: args[i] == rest[i - 1];
      AtomsAll(rest);
      assert Fits(a);
      if a.List? {
        AtomsAll(a.items);
        assert Encodable(a) <==> Opaque !in Atoms(a.items);
      } else {
        assert Encodable(a) <==> Opaque !in [a];
      }
      assert Opaque in Atoms(args) <==> Opaque in (if a.List? then Atoms(a.items) else [a]) || Opaque in Atoms(rest);
    }
  }

  /** A result is cached exactly when there is a cache and a pool, the primary need not be
      read, no transaction is under way and no argument, at any depth, is without a fixed
      encoding. */
  lemma {:induction false} CacheableExactly(r: Request)
    requires AllFit(r.lookup.args) && (r.lookup.paging.Some? ==> AllFit(r.lookup.paging.value.countArgs))
    ensures Cacheable(r) <==>
            && r.cache.Some? && r.hasInstance && !r.fromPrimary && !r.inTx && Opaque !in Atoms(r.lookup.args)
            && (r.lookup.paging.Some? ==> Opaque !in Atoms(r.lookup.paging.value.countArgs))
  {
    hide Atoms, Encodable, Fits;
    AtomsAll(r.lookup.args);
    if r.lookup.paging.Some? {
      AtomsAll(r.lookup.paging.value.countArgs);
    }
  }
}
