// Fields on the wire, and the reader that skips them.
module Wires {
  import opened Options
  import opened Bytes
  import opened Varints

  datatype Wire =
    | Varint(num: nat, bytes: seq<Byte>)
    | Fixed64(num: nat, bytes: seq<Byte>)
    | Delimited(num: nat, bytes: seq<Byte>)
    | Group(num: nat, fields: seq<Wire>)
    | Fixed32(num: nat, bytes: seq<Byte>)

  function TypeOf(w: Wire): nat {
    match w case Varint(_, _) => 0 case Fixed64(_, _) => 1 case Delimited(_, _) => 2 case Group(_, _) => 3 case Fixed32(_, _) => 5
  }

  function Tag(w: Wire): nat { 8 * w.num + TypeOf(w) }

  predicate WellFormed(w: Wire) {
    && 1 <= w.num < 0x2000_0000
    && match w
       case Varint(_, bytes) => IsVarint(bytes)
       case Fixed64(_, bytes) => |bytes| == 8
       case Delimited(_, bytes) => |bytes| < TWO_32
       case Group(_, fields) => AllWellFormed(fields)
       case Fixed32(_, bytes) => |bytes| == 4
  }

  predicate AllWellFormed(ws: seq<Wire>) {
    forall i :: 0 <= i < |ws| ==> WellFormed(ws[i])
  }

  function Body(w: Wire): seq<Byte>
    decreases w, 0
  {
    match w
    case Delimited(_, bytes) => VarintOf(|bytes|) + bytes
    case Group(num, fields) => SerializeAll(fields) + VarintOf(8 * num + 4)
    case _ => w.bytes
  }

  function Serialize(w: Wire): seq<Byte>
    decreases w, 1
  {
    VarintOf(Tag(w)) + Body(w)
  }

  function SerializeAll(ws: seq<Wire>): seq<Byte>
    decreases ws
  {
    if ws == [] then [] else Serialize(ws[0]) + SerializeAll(ws[1..])
  }

  lemma {:induction false} SerializeAppend(vs: seq<Wire>, ws: seq<Wire>)
    ensures SerializeAll(vs + ws) == SerializeAll(vs) + SerializeAll(ws)
    decreases |vs|
  {
    if vs == [] {
      assert vs + ws == ws;
    } else {
      assert (vs + ws)[1..] == vs[1..] + ws;
      SerializeAppend(vs[1..], ws);
    }
  }

  lemma SerializeOne(w: Wire)
    ensures SerializeAll([w]) == Serialize(w)
  {
    assert SerializeAll([w][1..]) == [];
  }

  // ---- skipping ----

  /** The position after a value of that wire type; a group ends at the end tag of its number,
      any end tag if the number is not known. */
  function Skip(buf: seq<Byte>, pos: nat, wireType: nat, num: Option<nat>): (r: Option<nat>)
    ensures r.Some? ==> pos <= r.value <= |buf|
    decreases |buf| - pos, 1
  {
    if pos > |buf| then None
    else if wireType == 0 then
      match ReadVarint(buf, pos, MAX_VARINT) case Some((_, after)) => Some(after) case None => None
    else if wireType == 1 then if pos + 8 <= |buf| then Some(pos + 8) else None
    else if wireType == 2 then
      match ReadVarint(buf, pos, MAX_VARINT)
      case Some((n, after)) => if after + n % TWO_32 <= |buf| then Some(after + n % TWO_32) else None
      case None => None
    else if wireType == 3 then SkipGroup(buf, pos, num)
    else if wireType == 5 then if pos + 4 <= |buf| then Some(pos + 4) else None
    else None
  }

  function SkipGroup(buf: seq<Byte>, pos: nat, num: Option<nat>): (r: Option<nat>)
    requires pos <= |buf|
    ensures r.Some? ==> pos <= r.value <= |buf|
    decreases |buf| - pos, 0
  {
    match ReadVarint(buf, pos, MAX_VARINT)
    case None => None
    case Some((n, after)) =>
      var tag := n % TWO_32;
      if tag < 8 then None
      else if tag % 8 == 4 then if num.Some? && num.value != tag / 8 then None else Some(after)
      else
        match Skip(buf, after, tag % 8, Some(tag / 8))
        case None => None
        case Some(next) => SkipGroup(buf, next, num)
  }

  lemma ReadsTag(buf: seq<Byte>, pos: nat, tag: nat)
    requires tag < TWO_32 && At(buf, pos, VarintOf(tag))
    ensures ReadVarint(buf, pos, MAX_VARINT) == Some((tag, pos + |VarintOf(tag)|)) && tag % TWO_32 == tag
  {
    ReadsNumber(buf, pos, tag);
  }

  lemma GroupEnds(buf: seq<Byte>, pos: nat, n: nat, num: Option<nat>)
    requires 1 <= n < 0x2000_0000 && (num.Some? ==> num.value == n) && At(buf, pos, VarintOf(8 * n + 4))
    ensures SkipGroup(buf, pos, num) == Some(pos + |VarintOf(8 * n + 4)|)
  {
    hide VarintOf, ReadVarint, Skip;
    ReadsTag(buf, pos, 8 * n + 4);
  }

  lemma GroupGoesOn(buf: seq<Byte>, pos: nat, w: Wire, num: Option<nat>)
    requires 1 <= w.num < 0x2000_0000 && At(buf, pos, VarintOf(Tag(w)))
    requires Skip(buf, pos + |VarintOf(Tag(w))|, TypeOf(w), Some(w.num)).Some?
    ensures SkipGroup(buf, pos, num) ==
            SkipGroup(buf, Skip(buf, pos + |VarintOf(Tag(w))|, TypeOf(w), Some(w.num)).value, num)
  {
    hide VarintOf, ReadVarint, Skip;
    ReadsTag(buf, pos, Tag(w));
    assert Tag(w) / 8 == w.num && Tag(w) % 8 == TypeOf(w);
  }

  /** A well-formed field is skipped whole. */
  lemma {:induction false} SkipsBody(buf: seq<Byte>, pos: nat, w: Wire, num: Option<nat>)
    requires WellFormed(w) && At(buf, pos, Body(w)) && (num.Some? ==> num.value == w.num)
    ensures Skip(buf, pos, TypeOf(w), num) == Some(pos + |Body(w)|)
    decreases w, 0
  {
    hide VarintOf, ReadVarint, SkipGroup, SerializeAll;
    match w
    case Varint(_, bytes) => ReadsVarint(buf, pos, bytes, MAX_VARINT);
    case Delimited(_, bytes) =>
      AtParts(buf, pos, VarintOf(|bytes|), bytes);
      ReadsTag(buf, pos, |bytes|);
    case Group(n, fields) => SkipsFields(buf, pos, fields, n, num);
    case _ =>
  }

  lemma AtFour(buf: seq<Byte>, pos: nat, tag: seq<Byte>, body: seq<Byte>, more: seq<Byte>, end: seq<Byte>)
    requires At(buf, pos, tag + body + more + end)
    ensures At(buf, pos, tag) && At(buf, pos + |tag|, body) && At(buf, pos + |tag| + |body|, more + end)
  {
    assert tag + body + more + end == tag + (body + (more + end));
    hide At;
    AtParts(buf, pos, tag, body + (more + end));
    AtParts(buf, pos + |tag|, body, more + end);
  }

  lemma FirstField(buf: seq<Byte>, pos: nat, ws: seq<Wire>, end: seq<Byte>)
    requires ws != [] && At(buf, pos, SerializeAll(ws) + end)
    ensures At(buf, pos, VarintOf(Tag(ws[0]))) && At(buf, pos + |VarintOf(Tag(ws[0]))|, Body(ws[0]))
    ensures At(buf, pos + |Serialize(ws[0])|, SerializeAll(ws[1..]) + end)
    ensures |SerializeAll(ws)| == |Serialize(ws[0])| + |SerializeAll(ws[1..])|
  {
    hide VarintOf, Body;
    var tag, body, more := VarintOf(Tag(ws[0])), Body(ws[0]), SerializeAll(ws[1..]);
    assert Serialize(ws[0]) == tag + body && SerializeAll(ws) == tag + body + more;
    hide Serialize, SerializeAll, At;
    AtFour(buf, pos, tag, body, more, end);
  }

  lemma {:induction false} SkipsFields(buf: seq<Byte>, pos: nat, ws: seq<Wire>, n: nat, num: Option<nat>)
    requires AllWellFormed(ws) && 1 <= n < 0x2000_0000 && (num.Some? ==> num.value == n)
    requires At(buf, pos, SerializeAll(ws) + VarintOf(8 * n + 4))
    ensures SkipGroup(buf, pos, num) == Some(pos + |SerializeAll(ws)| + |VarintOf(8 * n + 4)|)
    decreases ws
  {
    hide Skip, SkipGroup, VarintOf, Body;
    if ws == [] {
      assert SerializeAll(ws) + VarintOf(8 * n + 4) == VarintOf(8 * n + 4);
      GroupEnds(buf, pos, n, num);
    } else {
      FirstField(buf, pos, ws, VarintOf(8 * n + 4));
      SkipsBody(buf, pos + |VarintOf(Tag(ws[0]))|, ws[0], Some(ws[0].num));
      GroupGoesOn(buf, pos, ws[0], num);
      SkipsFields(buf, pos + |Serialize(ws[0])|, ws[1..], n, num);
    }
  }

  // ---- a list of fields has bytes of its own ----

  lemma SameBytes(buf: seq<Byte>, v: Wire, w: Wire)
    requires WellFormed(v) && WellFormed(w)
    requires At(buf, 0, VarintOf(Tag(v))) && At(buf, |VarintOf(Tag(v))|, Body(v))
    requires At(buf, 0, VarintOf(Tag(w))) && At(buf, |VarintOf(Tag(w))|, Body(w))
    ensures v.num == w.num && TypeOf(v) == TypeOf(w) && Body(v) == Body(w)
  {
    hide VarintOf, ReadVarint, Skip, Body;
    ReadsTag(buf, 0, Tag(v));
    ReadsTag(buf, 0, Tag(w));
    assert TypeOf(v) == TypeOf(w) && v.num == w.num;
    var pos := |VarintOf(Tag(v))|;
    SkipsBody(buf, pos, v, Option.None);
    SkipsBody(buf, pos, w, Option.None);
  }

  lemma SameDelimited(x: seq<Byte>, y: seq<Byte>)
    requires |x| < TWO_32 && |y| < TWO_32 && VarintOf(|x|) + x == VarintOf(|y|) + y
    ensures x == y
  {
    hide VarintOf, ReadVarint;
    var buf := VarintOf(|x|) + x;
    AtParts(buf, 0, VarintOf(|x|), x);
    AtParts(buf, 0, VarintOf(|y|), y);
    ReadsTag(buf, 0, |x|);
    ReadsTag(buf, 0, |y|);
  }

  lemma {:induction false} SameField(v: Wire, w: Wire)
    requires WellFormed(v) && WellFormed(w) && v.num == w.num && TypeOf(v) == TypeOf(w) && Body(v) == Body(w)
    ensures v == w
    decreases v, 0
  {
    hide VarintOf, SerializeAll;
    match v
    case Delimited(_, bytes) => SameDelimited(bytes, w.bytes);
    case Group(n, fields) =>
      var end := VarintOf(8 * n + 4);
      assert SerializeAll(fields) == (SerializeAll(fields) + end)[..|SerializeAll(fields)|];
      assert SerializeAll(w.fields) == (SerializeAll(w.fields) + end)[..|SerializeAll(w.fields)|];
      SerializesUniquely(fields, w.fields);
    case _ =>
  }

  /** No two lists of well-formed fields have the same bytes. */
  lemma {:induction false} SerializesUniquely(vs: seq<Wire>, ws: seq<Wire>)
    requires AllWellFormed(vs) && AllWellFormed(ws) && SerializeAll(vs) == SerializeAll(ws)
    ensures vs == ws
    decreases vs
  {
    hide VarintOf, Body;
    if vs != [] && ws != [] {
      SameFirst(vs, ws);
      assert SerializeAll(vs[1..]) == SerializeAll(vs)[|Serialize(vs[0])|..];
      assert SerializeAll(ws[1..]) == SerializeAll(ws)[|Serialize(ws[0])|..];
      SameField(vs[0], ws[0]);
      SerializesUniquely(vs[1..], ws[1..]);
      assert vs == [vs[0]] + vs[1..] && ws == [ws[0]] + ws[1..];
    }
  }

  lemma SameFirst(vs: seq<Wire>, ws: seq<Wire>)
    requires vs != [] && ws != [] && WellFormed(vs[0]) && WellFormed(ws[0]) && SerializeAll(vs) == SerializeAll(ws)
    ensures vs[0].num == ws[0].num && TypeOf(vs[0]) == TypeOf(ws[0]) && Body(vs[0]) == Body(ws[0])
  {
    hide VarintOf, Body;
    var buf := SerializeAll(vs);
    assert buf + [] == buf;
    FirstField(buf, 0, vs, []);
    FirstField(buf, 0, ws, []);
    SameBytes(buf, vs[0], ws[0]);
  }
}
