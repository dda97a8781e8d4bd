/**
  Cached queries: the key of a request, and every interleaving of requests that share
  caches and collapse concurrent misses into one fetch.
 */
module Cached {
  import opened CacheKey
  import opened CacheKeyLaws

  /** A query about to run: the cache it was given, whether there is a pool to run on,
      whether it must read the primary, and whether its context carries a transaction. */
  datatype Request = Request(lookup: Lookup, cache: Option<nat>, hasInstance: bool, fromPrimary: bool, inTx: bool)

  predicate Cacheable(r: Request) {
    r.cache.Some? && r.hasInstance && !r.fromPrimary && !r.inTx && Keyed(r.lookup)
  }

  lemma {:induction false} HeadBytesSnoc(parts: seq<Bytes>, b: Bytes)
    ensures HeadBytes(parts + [b]) == HeadBytes(parts) + Field(TAG_STR, b)
  {
    hide Field;
    if parts == [] {
      assert parts + [b] == [b] && [b][1..] == [];
    } else {
      assert (parts + [b])[1..] == parts[1..] + [b];
      HeadBytesSnoc(parts[1..], b);
    }
  }

  lemma {:induction false} OrderBytesSnoc(order: seq<Sort>, o: Sort)
    ensures OrderBytes(order + [o]) == OrderBytes(order) + Field(TAG_STR, o.field) + Field(TAG_STR, o.direction)
  {
    hide Field;
    if order == [] {
      assert order + [o] == [o] && [o][1..] == [];
    } else {
      assert (order + [o])[1..] == order[1..] + [o];
      OrderBytesSnoc(order[1..], o);
    }
  }

  method WriteStrings(h: Hasher, parts: seq<Bytes>)
    modifies h
    ensures h.written == old(h.written) + HeadBytes(parts)
  {
    hide Field, HeadBytes;
    NoHead();
    for i := 0 to |parts|
      invariant h.written == old(h.written) + HeadBytes(parts[..i])
    {
      h.WriteBytes(TAG_STR, parts[i]);
      assert parts[..i + 1] == parts[..i] + [parts[i]];
      HeadBytesSnoc(parts[..i], parts[i]);
    }
    assert parts[..|parts|] == parts;
  }

  lemma {:induction false} NoOrder()
    ensures OrderBytes([]) == []
  {
  }

  method WriteOrder(h: Hasher, order: seq<Sort>)
    modifies h
    ensures h.written == old(h.written) + OrderBytes(order)
  {
    hide Field, OrderBytes;
    NoOrder();
    for i := 0 to |order|
      invariant h.written == old(h.written) + OrderBytes(order[..i])
    {
      h.WriteBytes(TAG_STR, order[i].field);
      h.WriteBytes(TAG_STR, order[i].direction);
      assert order[..i + 1] == order[..i] + [order[i]];
      OrderBytesSnoc(order[..i], order[i]);
    }
    assert order[..|order|] == order;
  }

  method WritePaging(h: Hasher, p: Paging) returns (ok: bool)
    requires AllFit(p.countArgs)
    modifies h
    ensures ok <==> AllEncodable(p.countArgs)
    ensures ok ==> h.written == old(h.written) + PagingBytes(p)
  {
    hide Field, OrderBytes, ArgsBytes, AllEncodable, PageNumber, BigEndian;
    h.WriteBytes(TAG_PAGE, BigEndian(4, PageNumber(p)));
    WriteOrder(h, p.order);
    h.WriteBytes(TAG_STR, p.countQuery);
    ok := h.WriteArgs(p.countArgs);
  }

  /** The bytes that are hashed into the key, or None when the result must not be cached. */
  method KeyBytes(r: Request) returns (m: Option<seq<Byte>>)
    requires AllFit(r.lookup.args) && (r.lookup.paging.Some? ==> AllFit(r.lookup.paging.value.countArgs))
    ensures m.Some? <==> Cacheable(r)
    ensures m.Some? ==> m.value == Material(r.lookup)
  {
    hide HeadBytes, ArgsBytes, PagingBytes, Parts, AllEncodable, AllFit;
    if r.cache.None? || !r.hasInstance || r.fromPrimary {
      return None;
    }
    if r.inTx {
      return None;
    }
    var h := new Hasher();
    WriteStrings(h, Parts(r.lookup));
    var ok := h.WriteArgs(r.lookup.args);
    if !ok {
      return None;
    }
    if r.lookup.paging.Some? {
      ok := WritePaging(h, r.lookup.paging.value);
      if !ok {
        return None;
      }
    }
    return Some(h.written);
  }

  // ----- runs -----

  /** A hash without collisions. */
  datatype Hash = Hash(of: seq<Byte> -> nat)

  ghost predicate CollisionFree(h: Hash) {
    forall a, b :: h.of(a) == h.of(b) ==> a == b
  }

  /** What the database returned to a lookup: nothing, or a value. */
  datatype Answer = Answer(to: Lookup, value: Option<nat>)

  /** A fetch under way: who leads it and who waits for it. */
  datatype Flight = Flight(leader: Lookup, waiting: seq<Lookup>)

  /** A key inside one cache. */
  type Slot = (nat, nat)

  /** served pairs every caller with what it was given. */
  datatype State = State(stored: map<Slot, Answer>, flights: map<Slot, Flight>, served: seq<(Lookup, Answer)>)

  datatype Event =
    | Ask(r: Request, fetched: Option<nat>)           // fetched: what the database would answer now
    | Join(r: Request)                                // a request that missed leads a fetch or waits for one
    | Land(slot: Slot, fetched: Option<nat>)          // the leader's fetch succeeds
    | Fail(slot: Slot)                                // the leader's fetch fails
    | Evict(slot: Slot)

  function SlotOf(h: Hash, r: Request): Slot
    requires Cacheable(r)
  {
    (r.cache.value, h.of(Material(r.lookup)))
  }

  function Serve(s: State, l: Lookup, a: Answer): State {
    s.(served := s.served + [(l, a)])
  }

  function ServeAll(ls: seq<Lookup>, a: Answer): (r: seq<(Lookup, Answer)>)
    ensures |r| == |ls|
    ensures forall i | 0 <= i < |ls| :: r[i] == (ls[i], a)
  {
    seq(|ls|, i requires 0 <= i < |ls| => (ls[i], a))
  }

  /** A request that misses goes on with Join, at any later time. */
  function OnAsk(h: Hash, s: State, r: Request, fetched: Option<nat>): State {
    if !Cacheable(r) then Serve(s, r.lookup, Answer(r.lookup, fetched))
    else if SlotOf(h, r) in s.stored then Serve(s, r.lookup, s.stored[SlotOf(h, r)])
    else s
  }

  function OnJoin(h: Hash, s: State, r: Request): State {
    if !Cacheable(r) then s
    else
      var slot := SlotOf(h, r);
      if slot in s.flights then
        s.(flights := s.flights[slot := Flight(s.flights[slot].leader, s.flights[slot].waiting + [r.lookup])])
      else s.(flights := s.flights[slot := Flight(r.lookup, [])])
  }

  function OnLand(s: State, slot: Slot, fetched: Option<nat>): State {
    if slot !in s.flights then s
    else
      var f := s.flights[slot];
      var a := Answer(f.leader, fetched);
      State(if fetched.Some? then s.stored[slot := a] else s.stored, s.flights - {slot},
            s.served + ServeAll([f.leader] + f.waiting, a))
  }

  function Apply(h: Hash, s: State, e: Event): State {
    match e
    case Ask(r, fetched) => OnAsk(h, s, r, fetched)
    case Join(r) => OnJoin(h, s, r)
    case Land(slot, fetched) => OnLand(s, slot, fetched)
    case Fail(slot) => s.(flights := s.flights - {slot})
    case Evict(slot) => s.(stored := s.stored - {slot})
  }

  function Run(h: Hash, s: State, es: seq<Event>): State
    decreases |es|
  {
    if es == [] then s else Run(h, Apply(h, s, es[0]), es[1..])
  }

  /** The slot belongs to the lookup. */
  predicate Belongs(h: Hash, slot: Slot, l: Lookup) {
    Keyed(l) && slot.1 == h.of(Material(l))
  }

  predicate FlightOk(h: Hash, slot: Slot, f: Flight) {
    Belongs(h, slot, f.leader) && forall i | 0 <= i < |f.waiting| :: Belongs(h, slot, f.waiting[i])
  }

  predicate Served(s: State) {
    forall i | 0 <= i < |s.served| :: s.served[i].0 == s.served[i].1.to
  }

  predicate Inv(h: Hash, s: State) {
    && (forall slot | slot in s.stored :: Belongs(h, slot, s.stored[slot].to) && s.stored[slot].value.Some?)
    && (forall slot | slot in s.flights :: FlightOk(h, slot, s.flights[slot]))
    && Served(s)
  }

  lemma {:induction false} SameLookup(h: Hash, slot: Slot, l: Lookup, m: Lookup)
    requires CollisionFree(h) && Belongs(h, slot, l) && Belongs(h, slot, m)
    ensures l == m
  {
    hide Material, Keyed;
    MaterialInjective(l, m);
  }

  lemma {:induction false} AskKeeps(h: Hash, s: State, r: Request, fetched: Option<nat>)
    requires CollisionFree(h) && Inv(h, s)
    ensures Inv(h, OnAsk(h, s, r, fetched))
  {
    hide Material, Keyed, CollisionFree;
    if Cacheable(r) && SlotOf(h, r) in s.stored {
      SameLookup(h, SlotOf(h, r), r.lookup, s.stored[SlotOf(h, r)].to);
    }
  }

  lemma {:induction false} JoinKeeps(h: Hash, s: State, r: Request)
    requires Inv(h, s)
    ensures Inv(h, OnJoin(h, s, r))
  {
    hide Material, Keyed;
    if Cacheable(r) && SlotOf(h, r) in s.flights {
      assert FlightOk(h, SlotOf(h, r), s.flights[SlotOf(h, r)]);
    }
  }

  lemma {:induction false} LandKeeps(h: Hash, s: State, slot: Slot, fetched: Option<nat>)
    requires CollisionFree(h) && Inv(h, s)
    ensures Inv(h, OnLand(s, slot, fetched))
  {
    hide Material, Keyed, CollisionFree;
    if slot in s.flights {
      var f := s.flights[slot];
      assert FlightOk(h, slot, f);
      var all := [f.leader] + f.waiting;
      forall i | 0 <= i < |all|
        ensures all[i] == f.leader
      {
        SameLookup(h, slot, all[i], f.leader);
      }
    }
  }

  lemma {:induction false} RunKeeps(h: Hash, s: State, es: seq<Event>)
    requires CollisionFree(h) && Inv(h, s)
    ensures Inv(h, Run(h, s, es))
    decreases |es|
  {
    hide CollisionFree, OnAsk, OnJoin, OnLand, Belongs, FlightOk;
    if es != [] {
      match es[0] {
        case Ask(r, fetched) => AskKeeps(h, s, r, fetched);
        case Join(r) => JoinKeeps(h, s, r);
        case Land(slot, fetched) => LandKeeps(h, s, slot, fetched);
        case Fail(_) =>
        case Evict(_) =>
      }
      RunKeeps(h, Apply(h, s, es[0]), es[1..]);
    }
  }

  /** However requests for any caches interleave, every caller is given the database's
      answer to its own lookup; only values are stored, never a missing row. */
  lemma {:induction false} EveryoneGetsTheirOwn(h: Hash, es: seq<Event>)
    requires CollisionFree(h)
    ensures var s := Run(h, State(map[], map[], []), es);
            && (forall i | 0 <= i < |s.served| :: s.served[i].0 == s.served[i].1.to)
            && (forall slot | slot in s.stored :: s.stored[slot].value.Some?)
  {
    hide Run;
    RunKeeps(h, State(map[], map[], []), es);
  }

  /** A request that must not be cached neither reads nor writes a cache, nor joins a fetch. */
  lemma {:induction false} UncacheableFetches(h: Hash, s: State, r: Request, fetched: Option<nat>)
    requires r.cache.None? || !r.hasInstance || r.fromPrimary || r.inTx || !Keyed(r.lookup)
    ensures var t := Apply(h, s, Ask(r, fetched));
            && t.stored == s.stored && t.flights == s.flights
            && t.served == s.served + [(r.lookup, Answer(r.lookup, fetched))]
  {
  }

  /** With a hash that confuses two lookups, one of them is served the other's answer. */
  lemma {:induction false} CollisionServesAnother(h: Hash, l: Lookup, m: Lookup)
    requires Keyed(l) && Keyed(m) && l != m && h.of(Material(l)) == h.of(Material(m))
    ensures var query := (x: Lookup) => Request(x, Some(0), true, false, false);
            var es := [Join(query(l)), Land((0, h.of(Material(l))), Some(7)), Ask(query(m), None)];
            !Served(Run(h, State(map[], map[], []), es))
  {
    hide Material, Keyed;
    var slot := (0, h.of(Material(l)));
    var s0 := State(map[], map[], []);
    var e0 := Join(Request(l, Some(0), true, false, false));
    var e1 := Land(slot, Some(7));
    var e2 := Ask(Request(m, Some(0), true, false, false), None);
    var es := [e0, e1, e2];
    assert es[1..] == [e1, e2] && es[1..][1..] == [e2] && [e2][1..] == [];
    var s1 := Apply(h, s0, e0);
    assert slot in s1.flights && s1.flights[slot] == Flight(l, []);
    var s2 := Apply(h, s1, e1);
    assert slot in s2.stored && s2.stored[slot] == Answer(l, Some(7)) && |s2.served| == 1;
    var s3 := Apply(h, s2, e2);
    assert s3.served[1] == (m, Answer(l, Some(7)));
    assert Run(h, s2, [e2]) == s3;
  }
}
