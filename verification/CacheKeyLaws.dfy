/**
  The bytes of a lookup read back to the lookup, so that no two lookups share them.
 */
module CacheKeyLaws {
  import opened CacheKey

  // ----- reading a whole lookup -----

  function ReadHead(n: nat, w: seq<Byte>): Reading<seq<Bytes>> {
    if n == 0 then Read([], w)
    else match ReadTagged(TAG_STR, w)
      case Bad => Bad
      case Read(b, rest) =>
        match ReadHead(n - 1, rest)
        case Bad => Bad
        case Read(more, rest') => Read([b] + more, rest')
  }

  function Sorts(parts: seq<Bytes>): seq<Sort> {
    if |parts| < 2 then [] else [Sort(parts[0], parts[1])] + Sorts(parts[2..])
  }

  function PageAndLimit(b: Bytes): (UInt16, UInt16) {
    var n := Number(b) % 0x1_0000_0000;
    (n / 0x1_0000, n % 0x1_0000)
  }

  function ReadPaging(w: seq<Byte>): Reading<Paging> {
    match ReadTagged(TAG_PAGE, w)
    case Bad => Bad
    case Read(b, rest) =>
      match ReadStrings(rest)
      case Bad => Bad
      case Read(strings, rest') =>
        if strings == [] then Bad
        else match ReadArgs(rest')
          case Bad => Bad
          case Read(args, rest'') =>
            Read(Paging(PageAndLimit(b).0, PageAndLimit(b).1, Sorts(strings), strings[|strings| - 1], args), rest'')
  }

  function ReadLookup(w: seq<Byte>): Option<Lookup> {
    match ReadHead(6, w)
    case Bad => None
    case Read(p, rest) =>
      if |p| != 6 then None
      else match ReadArgs(rest)
        case Bad => None
        case Read(args, rest') =>
          if rest' == [] then Some(Lookup(p[0], p[1], p[2], p[3], p[4], p[5], args, None))
          else match ReadPaging(rest')
            case Bad => None
            case Read(paging, rest'') =>
              if rest'' == [] then Some(Lookup(p[0], p[1], p[2], p[3], p[4], p[5], args, Some(paging))) else None
  }

  // ----- each part reads back -----

  lemma {:induction false} FieldReads(tag: Byte, b: Bytes, rest: seq<Byte>)
    ensures ReadField(Field(tag, b) + rest) == Read((tag, b), rest)
  {
    hide BigEndian, Number;
    var w := Field(tag, b) + rest;
    var n := BigEndian(8, |b|);
    assert w[1..9] == n && w[0] == tag;
    EightReads(|b|);
    assert w[9..9 + |b|] == b && w[9 + |b|..] == rest;
  }

  lemma {:induction false} EightReads(n: UInt64)
    ensures Number(BigEndian(8, n)) == n
  {
    EightBytes();
    NumberReads(8, n);
  }

  lemma {:induction false} TaggedReads(tag: Byte, b: Bytes, rest: seq<Byte>, other: Byte)
    ensures ReadTagged(other, Field(tag, b) + rest) == if tag == other then Read(b, rest) else Bad
  {
    hide Field, ReadField;
    FieldReads(tag, b, rest);
  }

  lemma {:induction false} CountReads(n: UInt64, rest: seq<Byte>)
    ensures ReadCount(Count(n) + rest) == Read(n, rest)
  {
    hide Field, ReadTagged;
    EightReads(n);
    TaggedReads(TAG_COUNT, Eight(n), rest, TAG_COUNT);
  }

  lemma {:induction false} ScalarReads(a: Arg, rest: seq<Byte>)
    requires Encodable(a) && !a.List?
    ensures ReadArg(ArgBytes(a) + rest) == Read(a, rest)
  {
    hide Field, ReadField, Number, BigEndian;
    match a
    case Nil => FieldReads(TAG_NIL, [], rest);
    case Int(i) => FieldReads(TAG_INT, Eight(Bits(i)), rest); EightReads(Bits(i));
    case UInt(u) => FieldReads(TAG_UINT, Eight(u), rest); EightReads(u);
    case Float(bits) => FieldReads(TAG_FLOAT, Eight(bits), rest); EightReads(bits);
    case Bool(b) => FieldReads(TAG_BOOL, if b then TRUE else FALSE, rest);
    case Blob(blob) => FieldReads(TAG_BLOB, blob, rest);
    case Str(s) => FieldReads(TAG_STR, s, rest);
    case Time(text) => FieldReads(TAG_TIME, text, rest);
  }

  lemma {:induction false} ArgReads(a: Arg, rest: seq<Byte>)
    requires Encodable(a)
    ensures ReadArg(ArgBytes(a) + rest) == Read(a, rest)
    decreases a, 0
  {
    if a.List? {
      ItemsRead(a.items, rest);
      ListReads(a, rest);
    } else {
      ScalarReads(a, rest);
    }
  }

  lemma {:induction false} ListReads(a: Arg, rest: seq<Byte>)
    requires a.List? && Encodable(a)
    requires ReadItems(|a.items|, ItemBytes(a.items) + rest) == Read(a.items, rest)
    ensures ReadArg(ArgBytes(a) + rest) == Read(a, rest)
  {
    hide Field, ReadField, Number, BigEndian, ReadItems, ItemBytes, ReadCount, Count;
    var tail := ItemBytes(a.items) + rest;
    FieldReads(TAG_LIST, a.typ, Count(|a.items|) + tail);
    CountReads(|a.items|, tail);
    assert ArgBytes(a) + rest == Field(TAG_LIST, a.typ) + (Count(|a.items|) + tail);
  }

  lemma {:induction false} ItemsRead(items: seq<Arg>, rest: seq<Byte>)
    requires forall i | 0 <= i < |items| :: Encodable(items[i])
    ensures ReadItems(|items|, ItemBytes(items) + rest) == Read(items, rest)
    decreases items
  {
    hide ReadArg, ArgBytes;
    if items == [] {
      assert ItemBytes(items) + rest == rest;
    } else {
      var more := ItemBytes(items[1..]) + rest;
      assert ItemBytes(items) + rest == ArgBytes(items[0]) + more;
      ArgReads(items[0], more);
      ItemsRead(items[1..], rest);
      assert items == [items[0]] + items[1..];
    }
  }

  lemma {:induction false} ArgsRead(args: seq<Arg>, rest: seq<Byte>)
    requires AllEncodable(args)
    ensures ReadArgs(ArgsBytes(args) + rest) == Read(args, rest)
  {
    hide ReadCount, Count, ReadItems, ItemBytes;
    var tail := ItemBytes(args) + rest;
    assert ArgsBytes(args) + rest == Count(|args|) + tail;
    CountReads(|args|, tail);
    ItemsRead(args, rest);
  }

  lemma {:induction false} HeadReads(parts: seq<Bytes>, rest: seq<Byte>)
    ensures ReadHead(|parts|, HeadBytes(parts) + rest) == Read(parts, rest)
  {
    hide ReadTagged, Field;
    if parts == [] {
      assert HeadBytes(parts) + rest == rest;
    } else {
      var more := HeadBytes(parts[1..]) + rest;
      assert HeadBytes(parts) + rest == Field(TAG_STR, parts[0]) + more;
      TaggedReads(TAG_STR, parts[0], more, TAG_STR);
      HeadReads(parts[1..], rest);
      assert parts == [parts[0]] + parts[1..];
    }
  }

  lemma {:induction false} HeadBytesCons(b: Bytes, more: seq<Bytes>)
    ensures HeadBytes([b] + more) == Field(TAG_STR, b) + HeadBytes(more)
  {
    hide Field;
    assert ([b] + more)[1..] == more;
  }

  lemma {:induction false} OneMoreString(b: Bytes, w: seq<Byte>, parts: seq<Bytes>, rest: seq<Byte>)
    requires ReadStrings(w) == Read(parts, rest)
    ensures ReadStrings(Field(TAG_STR, b) + w) == Read([b] + parts, rest)
  {
    hide ReadTagged, Field;
    TaggedReads(TAG_STR, b, w, TAG_STR);
    FieldIsLong(TAG_STR, b);
  }

  /** A list of strings needs no length: the count that follows ends it. */
  lemma {:induction false} StringsRead(parts: seq<Bytes>, rest: seq<Byte>)
    requires ReadTagged(TAG_STR, rest).Bad?
    ensures ReadStrings(HeadBytes(parts) + rest) == Read(parts, rest)
  {
    hide ReadTagged, Field, HeadBytes;
    if parts == [] {
      NoStrings(rest);
    } else {
      var b, more := parts[0], parts[1..];
      assert parts == [b] + more;
      HeadBytesCons(b, more);
      StringsRead(more, rest);
      assert HeadBytes(parts) + rest == Field(TAG_STR, b) + (HeadBytes(more) + rest);
      OneMoreString(b, HeadBytes(more) + rest, more, rest);
    }
  }

  lemma {:induction false} NoStrings(rest: seq<Byte>)
    requires ReadTagged(TAG_STR, rest).Bad?
    ensures ReadStrings(HeadBytes([]) + rest) == Read([], rest)
  {
    assert HeadBytes([]) + rest == rest;
  }

  lemma {:induction false} FieldIsLong(tag: Byte, b: Bytes)
    ensures |Field(tag, b)| == 9 + |b|
  {
  }

  // ----- the order list -----

  function Strings(order: seq<Sort>): seq<Bytes> {
    if order == [] then [] else [order[0].field, order[0].direction] + Strings(order[1..])
  }

  lemma {:induction false} SortsBack(order: seq<Sort>, last: Bytes)
    ensures Sorts(Strings(order) + [last]) == order
  {
    if order != [] {
      var s := Strings(order) + [last];
      assert s[2..] == Strings(order[1..]) + [last];
      SortsBack(order[1..], last);
      assert order == [order[0]] + order[1..];
    }
  }

  lemma {:induction false} Regroup<T>(a: seq<T>, b: seq<T>, c: seq<T>, d: seq<T>)
    ensures a + (b + (c + d)) == a + b + c + d
  {
  }

  lemma {:induction false} OrderIsStrings(order: seq<Sort>, last: Bytes)
    ensures HeadBytes(Strings(order) + [last]) == OrderBytes(order) + Field(TAG_STR, last)
  {
    hide Field, HeadBytes;
    if order == [] {
      assert Strings(order) + [last] == [last] + [];
      HeadBytesCons(last, []);
      NoHead();
    } else {
      OrderIsStrings(order[1..], last);
      OneMoreSort(order[0], order[1..], last);
      assert order == [order[0]] + order[1..];
    }
  }

  lemma {:induction false} OneMoreSort(o: Sort, order: seq<Sort>, last: Bytes)
    requires HeadBytes(Strings(order) + [last]) == OrderBytes(order) + Field(TAG_STR, last)
    ensures HeadBytes(Strings([o] + order) + [last]) == OrderBytes([o] + order) + Field(TAG_STR, last)
  {
    hide Field, HeadBytes, OrderBytes, Strings;
    var more := Strings(order) + [last];
    SortCons(o, order);
    assert Strings([o] + order) + [last] == [o.field] + ([o.direction] + more);
    HeadBytesCons(o.field, [o.direction] + more);
    HeadBytesCons(o.direction, more);
    Regroup(Field(TAG_STR, o.field), Field(TAG_STR, o.direction), OrderBytes(order), Field(TAG_STR, last));
  }

  lemma {:induction false} SortCons(o: Sort, order: seq<Sort>)
    ensures Strings([o] + order) == [o.field, o.direction] + Strings(order)
    ensures OrderBytes([o] + order) == Field(TAG_STR, o.field) + Field(TAG_STR, o.direction) + OrderBytes(order)
  {
    hide Field;
    assert ([o] + order)[1..] == order;
  }

  lemma {:induction false} NoHead()
    ensures HeadBytes([]) == []
  {
  }

  lemma {:induction false} PageReads(p: Paging)
    ensures PageAndLimit(BigEndian(4, PageNumber(p))) == (p.page, p.limit)
  {
    EightBytes();
    NumberReads(4, PageNumber(p));
  }

  lemma {:induction false} PagingReads(p: Paging)
    requires AllEncodable(p.countArgs)
    ensures ReadPaging(PagingBytes(p)) == Read(p, [])
  {
    hide Field, ReadTagged, ReadStrings, ReadArgs, ArgsBytes, BigEndian, OrderBytes, HeadBytes, PageAndLimit, Sorts,
         PageNumber;
    var strings := Strings(p.order) + [p.countQuery];
    var args := ArgsBytes(p.countArgs);
    var tail := HeadBytes(strings) + args;
    OrderIsStrings(p.order, p.countQuery);
    assert PagingBytes(p) == Field(TAG_PAGE, BigEndian(4, PageNumber(p))) + tail;
    TaggedReads(TAG_PAGE, BigEndian(4, PageNumber(p)), tail, TAG_PAGE);
    ArgsAreNoString(p.countArgs);
    StringsRead(strings, args);
    ArgsRead(p.countArgs, []);
    assert args + [] == args;
    SortsBack(p.order, p.countQuery);
    PageReads(p);
  }

  lemma {:induction false} ArgsAreNoString(args: seq<Arg>)
    requires AllEncodable(args)
    ensures ReadTagged(TAG_STR, ArgsBytes(args)).Bad?
  {
    hide Field, ReadTagged, ItemBytes;
    TaggedReads(TAG_COUNT, Eight(|args|), ItemBytes(args), TAG_STR);
  }

  // ----- the whole lookup -----

  /** The bytes determine the lookup: databases, scopes, type, kind, query, arguments with
      their nesting, page, order and count query. */
  lemma {:induction false} MaterialReads(l: Lookup)
    requires Keyed(l)
    ensures ReadLookup(Material(l)) == Some(l)
  {
    hide HeadBytes, ArgsBytes, PagingBytes, ReadHead, ReadArgs, ReadPaging;
    var paging := if l.paging.Some? then PagingBytes(l.paging.value) else [];
    var tail := ArgsBytes(l.args) + paging;
    assert Material(l) == HeadBytes(Parts(l)) + tail;
    HeadReads(Parts(l), tail);
    ArgsRead(l.args, paging);
    if l.paging.Some? {
      PagingReads(l.paging.value);
      PagingNotEmpty(l.paging.value);
    }
  }

  lemma {:induction false} PagingNotEmpty(p: Paging)
    requires AllEncodable(p.countArgs)
    ensures PagingBytes(p) != []
  {
    hide BigEndian;
    FieldIsLong(TAG_PAGE, BigEndian(4, PageNumber(p)));
  }

  lemma {:induction false} MaterialInjective(l: Lookup, m: Lookup)
    requires Keyed(l) && Keyed(m) && Material(l) == Material(m)
    ensures l == m
  {
    hide Material, ReadLookup;
    MaterialReads(l);
    MaterialReads(m);
  }
}
