/**
  The bytes a cached query is known by: every part is written as a tag, its length in
  eight bytes, and its content. The bytes can be read back, so no two lookups share them.
 */
module CacheKey {

  type Byte = x: int | 0 <= x < 256
  type Bytes = b: seq<Byte> | |b| < TWO_64
  type Int64 = x: int | -TWO_63 <= x < TWO_63
  type UInt64 = x: int | 0 <= x < TWO_64
  type UInt16 = x: int | 0 <= x < 0x1_0000

  const TWO_63: int := 0x8000_0000_0000_0000
  const TWO_64: int := 0x1_0000_0000_0000_0000

  datatype Option<+T> = None | Some(value: T)

  // ----- big-endian numbers -----

  function Pow256(k: nat): (p: nat)
    ensures p > 0
  {
    if k == 0 then 1 else 256 * Pow256(k - 1)
  }

  /** n in k bytes, the most significant first. */
  function BigEndian(k: nat, n: nat): (b: seq<Byte>)
    ensures |b| == k
  {
    if k == 0 then [] else BigEndian(k - 1, n / 256) + [n % 256]
  }

  function Number(b: seq<Byte>): nat {
    if b == [] then 0 else Number(b[..|b| - 1]) * 256 + b[|b| - 1]
  }

  lemma {:induction false} NumberReads(k: nat, n: nat)
    requires n < Pow256(k)
    ensures Number(BigEndian(k, n)) == n
  {
    if k > 0 {
      var b := BigEndian(k, n);
      assert b[..|b| - 1] == BigEndian(k - 1, n / 256);
      NumberReads(k - 1, n / 256);
    }
  }

  lemma {:induction false} EightBytes()
    ensures Pow256(8) == TWO_64
    ensures Pow256(4) == 0x1_0000_0000
  {
    assert Pow256(1) == 256 && Pow256(2) == 0x1_0000 && Pow256(3) == 0x100_0000 && Pow256(4) == 0x1_0000_0000;
    assert Pow256(5) == 0x100_0000_0000 && Pow256(6) == 0x1_0000_0000_0000;
  }

  /** The bits of a signed number, read as unsigned. */
  function Bits(n: Int64): UInt64 {
    if n < 0 then n + TWO_64 else n
  }

  function Signed(n: UInt64): Int64 {
    if n >= TWO_63 then n - TWO_64 else n
  }

  // ----- the parts -----

  /** A driver value, as the key records it: a time by its text, a float by its bits, a
      slice element by element. Opaque stands for anything without a fixed encoding. */
  datatype Arg =
    | Nil
    | Int(i: Int64)
    | UInt(u: UInt64)
    | Float(bits: UInt64)
    | Bool(b: bool)
    | Blob(blob: Bytes)
    | Str(s: Bytes)
    | Time(text: Bytes)
    | List(typ: Bytes, items: seq<Arg>)
    | Opaque

  datatype Sort = Sort(field: Bytes, direction: Bytes)

  datatype Paging = Paging(page: UInt16, limit: UInt16, order: seq<Sort>, countQuery: Bytes, countArgs: seq<Arg>)

  datatype Lookup = Lookup(database: Bytes, scope: Bytes, ctxScope: Bytes, typ: Bytes, kind: Bytes, query: Bytes,
                           args: seq<Arg>, paging: Option<Paging>)

  const TRUE: Bytes := [116, 114, 117, 101]
  const FALSE: Bytes := [102, 97, 108, 115, 101]

  const TAG_NIL: Byte := 48      // '0'
  const TAG_INT: Byte := 105     // 'i'
  const TAG_UINT: Byte := 117    // 'u'
  const TAG_FLOAT: Byte := 102   // 'f'
  const TAG_BOOL: Byte := 98     // 'b'
  const TAG_BLOB: Byte := 121    // 'y'
  const TAG_STR: Byte := 115     // 's'
  const TAG_TIME: Byte := 116    // 't'
  const TAG_LIST: Byte := 76     // 'L'
  const TAG_COUNT: Byte := 110   // 'n'
  const TAG_PAGE: Byte := 112    // 'p'

  // ----- writing -----

  function Field(tag: Byte, b: Bytes): seq<Byte> {
    [tag] + BigEndian(8, |b|) + b
  }

  function Eight(n: UInt64): Bytes {
    BigEndian(8, n)
  }

  function Count(n: nat): seq<Byte>
    requires n < TWO_64
  {
    Field(TAG_COUNT, Eight(n))
  }

  /** The argument has a fixed encoding. */
  predicate Encodable(a: Arg) {
    match a
    case Opaque => false
    case List(_, items) => |items| < TWO_64 && forall i | 0 <= i < |items| :: Encodable(items[i])
    case _ => true
  }

  predicate AllEncodable(args: seq<Arg>) {
    |args| < TWO_64 && forall i | 0 <= i < |args| :: Encodable(args[i])
  }

  function ArgBytes(a: Arg): seq<Byte>
    requires Encodable(a)
    decreases a, 0
  {
    match a
    case Nil => Field(TAG_NIL, [])
    case Int(i) => Field(TAG_INT, Eight(Bits(i)))
    case UInt(u) => Field(TAG_UINT, Eight(u))
    case Float(bits) => Field(TAG_FLOAT, Eight(bits))
    case Bool(b) => Field(TAG_BOOL, if b then TRUE else FALSE)
    case Blob(blob) => Field(TAG_BLOB, blob)
    case Str(s) => Field(TAG_STR, s)
    case Time(text) => Field(TAG_TIME, text)
    case List(typ, items) => Field(TAG_LIST, typ) + Count(|items|) + ItemBytes(items)
  }

  function ItemBytes(items: seq<Arg>): seq<Byte>
    requires forall i | 0 <= i < |items| :: Encodable(items[i])
    decreases items
  {
    if items == [] then [] else ArgBytes(items[0]) + ItemBytes(items[1..])
  }

  function ArgsBytes(args: seq<Arg>): seq<Byte>
    requires AllEncodable(args)
  {
    Count(|args|) + ItemBytes(args)
  }

  function OrderBytes(order: seq<Sort>): seq<Byte> {
    if order == [] then []
    else Field(TAG_STR, order[0].field) + Field(TAG_STR, order[0].direction) + OrderBytes(order[1..])
  }

  function PageNumber(p: Paging): UInt64 {
    p.page * 0x1_0000 + p.limit
  }

  function PagingBytes(p: Paging): seq<Byte>
    requires AllEncodable(p.countArgs)
  {
    Field(TAG_PAGE, BigEndian(4, PageNumber(p))) + OrderBytes(p.order) + Field(TAG_STR, p.countQuery)
      + ArgsBytes(p.countArgs)
  }

  function HeadBytes(parts: seq<Bytes>): seq<Byte> {
    if parts == [] then [] else Field(TAG_STR, parts[0]) + HeadBytes(parts[1..])
  }

  function Parts(l: Lookup): seq<Bytes> {
    [l.database, l.scope, l.ctxScope, l.typ, l.kind, l.query]
  }

  predicate Keyed(l: Lookup) {
    AllEncodable(l.args) && (l.paging.Some? ==> AllEncodable(l.paging.value.countArgs))
  }

  /** What is hashed. */
  function Material(l: Lookup): seq<Byte>
    requires Keyed(l)
  {
    HeadBytes(Parts(l)) + ArgsBytes(l.args) + (if l.paging.Some? then PagingBytes(l.paging.value) else [])
  }

  // ----- reading -----

  datatype Reading<+T> = Bad | Read(value: T, rest: seq<Byte>)

  function ReadField(w: seq<Byte>): Reading<(Byte, Bytes)> {
    if |w| < 9 then Bad
    else
      var n := Number(w[1..9]);
      if n >= TWO_64 || |w| < 9 + n then Bad else Read((w[0], w[9..9 + n]), w[9 + n..])
  }

  function ReadTagged(tag: Byte, w: seq<Byte>): Reading<Bytes> {
    match ReadField(w)
    case Bad => Bad
    case Read(f, rest) => if f.0 == tag then Read(f.1, rest) else Bad
  }

  function ReadCount(w: seq<Byte>): Reading<nat> {
    match ReadTagged(TAG_COUNT, w)
    case Bad => Bad
    case Read(b, rest) => Read(Number(b), rest)
  }

  function Word(b: Bytes): UInt64 {
    if Number(b) < TWO_64 then Number(b) else 0
  }

  function ReadArg(w: seq<Byte>): (r: Reading<Arg>)
    ensures r.Read? ==> |r.rest| < |w|
    decreases |w|, 0
  {
    match ReadField(w)
    case Bad => Bad
    case Read((tag, b), rest) =>
      if tag == TAG_NIL then Read(Nil, rest)
      else if tag == TAG_INT then Read(Int(Signed(Word(b))), rest)
      else if tag == TAG_UINT then Read(UInt(Word(b)), rest)
      else if tag == TAG_FLOAT then Read(Float(Word(b)), rest)
      else if tag == TAG_BOOL then Read(Bool(b == TRUE), rest)
      else if tag == TAG_BLOB then Read(Blob(b), rest)
      else if tag == TAG_STR then Read(Str(b), rest)
      else if tag == TAG_TIME then Read(Time(b), rest)
      else if tag == TAG_LIST then
        match ReadCount(rest) {
          case Bad => Bad
          case Read(n, rest') =>
            match ReadItems(n, rest') {
              case Bad => Bad
              case Read(items, rest'') => Read(List(b, items), rest'')
            }
        }
      else Bad
  }

  function ReadItems(n: nat, w: seq<Byte>): (r: Reading<seq<Arg>>)
    ensures r.Read? ==> |r.rest| <= |w|
    decreases |w|, n
  {
    if n == 0 then Read([], w)
    else match ReadArg(w)
      case Bad => Bad
      case Read(a, rest) =>
        match ReadItems(n - 1, rest)
        case Bad => Bad
        case Read(more, rest') => Read([a] + more, rest')
  }

  function ReadArgs(w: seq<Byte>): Reading<seq<Arg>> {
    match ReadCount(w)
    case Bad => Bad
    case Read(n, rest) => ReadItems(n, rest)
  }

  /** The strings up to the first field that is not one. */
  function ReadStrings(w: seq<Byte>): (r: Reading<seq<Bytes>>)
    decreases |w|
  {
    match ReadTagged(TAG_STR, w)
    case Bad => Read([], w)
    case Read(b, rest) =>
      if |rest| < |w| then
        match ReadStrings(rest)
        case Bad => Bad
        case Read(more, rest') => Read([b] + more, rest')
      else Bad
  }

  // ----- the writer -----

  /** Slice lengths fit the machine. */
  predicate Fits(a: Arg) {
    a.List? ==> |a.items| < TWO_64 && forall i | 0 <= i < |a.items| :: Fits(a.items[i])
  }

  predicate AllFit(args: seq<Arg>) {
    |args| < TWO_64 && forall i | 0 <= i < |args| :: Fits(args[i])
  }

  lemma {:induction false} ItemBytesSnoc(items: seq<Arg>, a: Arg)
    requires Encodable(a) && forall i | 0 <= i < |items| :: Encodable(items[i])
    ensures ItemBytes(items + [a]) == ItemBytes(items) + ArgBytes(a)
    decreases |items|
  {
    hide ArgBytes;
    if items == [] {
      assert items + [a] == [a] && [a][1..] == [];
    } else {
      assert (items + [a])[1..] == items[1..] + [a];
      ItemBytesSnoc(items[1..], a);
    }
  }

  /** The running hash, as the bytes written to it. */
  class Hasher {
    var written: seq<Byte>

    constructor ()
      ensures written == []
    {
      written := [];
    }

    method WriteBytes(tag: Byte, b: Bytes)
      modifies this
      ensures written == old(written) + Field(tag, b)
    {
      var header := [tag] + BigEndian(8, |b|);
      written := written + header;
      written := written + b;
    }

    /** False as soon as an argument has no fixed encoding; what was written is then dropped
        by the caller. */
    method WriteArg(a: Arg) returns (ok: bool)
      requires Fits(a)
      modifies this
      ensures ok <==> Encodable(a)
      ensures ok ==> written == old(written) + ArgBytes(a)
      decreases a
    {
      hide Field;
      match a {
        case Opaque => return false;
        case List(typ, items) =>
          WriteBytes(TAG_LIST, typ);
          WriteBytes(TAG_COUNT, Eight(|items|));
          ghost var header := written;
          for i := 0 to |items|
            invariant forall j | 0 <= j < i :: Encodable(items[j])
            invariant written == header + ItemBytes(items[..i])
          {
            ok := WriteArg(items[i]);
            if !ok {
              return;
            }
            assert items[..i + 1] == items[..i] + [items[i]];
            ItemBytesSnoc(items[..i], items[i]);
          }
          assert items[..|items|] == items;
        case Nil => WriteBytes(TAG_NIL, []);
        case Int(i) => WriteBytes(TAG_INT, Eight(Bits(i)));
        case UInt(u) => WriteBytes(TAG_UINT, Eight(u));
        case Float(bits) => WriteBytes(TAG_FLOAT, Eight(bits));
        case Bool(b) => WriteBytes(TAG_BOOL, if b then TRUE else FALSE);
        case Blob(blob) => WriteBytes(TAG_BLOB, blob);
        case Str(s) => WriteBytes(TAG_STR, s);
        case Time(text) => WriteBytes(TAG_TIME, text);
      }
      return true;
    }

    method WriteArgs(args: seq<Arg>) returns (ok: bool)
      requires AllFit(args)
      modifies this
      ensures ok <==> AllEncodable(args)
      ensures ok ==> written == old(written) + ArgsBytes(args)
    {
      hide Field, ArgBytes, Encodable;
      WriteBytes(TAG_COUNT, Eight(|args|));
      ghost var header := written;
      for i := 0 to |args|
        invariant forall j | 0 <= j < i :: Encodable(args[j])
        invariant written == header + ItemBytes(args[..i])
      {
        ok := WriteArg(args[i]);
        if !ok {
          return;
        }
        assert args[..i + 1] == args[..i] + [args[i]];
        ItemBytesSnoc(args[..i], args[i]);
      }
      assert args[..|args|] == args;
      return true;
    }
  }
}
