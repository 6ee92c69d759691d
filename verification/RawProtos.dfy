// Protocol Buffers without a schema: decodeRawProto of tracer/parser.go, over the wire format's
// tags and values as its library consumes them.
module RawProtos {
  import opened Options
  import opened Bytes
  import opened Varints
  import opened Wires

  const MAX_DEPTH := 100

  // One field on the wire: a number for the varint and fixed types, bytes for the delimited type
  // and for the inside of a group.
  datatype Token = Token(num: nat, wireType: nat, n: nat, bytes: seq<Byte>)

  function Little(s: seq<Byte>): nat {
    if s == [] then 0 else s[0] + 256 * Little(s[1..])
  }

  /** A varint of at most ten bytes and 64 bits. */
  function Consume(buf: seq<Byte>, pos: nat): (r: Option<(nat, nat)>)
    ensures r.Some? ==> pos < r.value.1 <= |buf|
  {
    match ReadVarint(buf, pos, MAX_VARINT)
    case None => None
    case Some((n, after)) => if n < TWO_64 then Some((n, after)) else None
  }

  /** A tag: the number must be from 1 to the largest int32. */
  function ConsumeTag(buf: seq<Byte>, pos: nat): (r: Option<(nat, nat, nat)>)
    ensures r.Some? ==> pos < r.value.2 <= |buf| && r.value.0 >= 1 && r.value.1 < 8
  {
    match Consume(buf, pos)
    case None => None
    case Some((v, after)) => if 1 <= v / 8 <= 0x7fff_ffff then Some((v / 8, v % 8, after)) else None
  }

  /** The end of a group's content and the position after its end tag. */
  function ConsumeGroup(buf: seq<Byte>, pos: nat, num: nat): (r: Option<(nat, nat)>)
    requires pos <= |buf|
    ensures r.Some? ==> pos <= r.value.0 < r.value.1 <= |buf|
    decreases |buf| - pos, 0
  {
    match ConsumeTag(buf, pos)
    case None => None
    case Some((inner, wireType, after)) =>
      if wireType == 4 then if inner == num then Some((pos, after)) else None
      else
        match ConsumeValue(buf, after, inner, wireType)
        case None => None
        case Some((_, next)) => ConsumeGroup(buf, next, num)
  }

  function ConsumeValue(buf: seq<Byte>, pos: nat, num: nat, wireType: nat): (r: Option<(Token, nat)>)
    requires pos <= |buf|
    ensures r.Some? ==> pos <= r.value.1 <= |buf| && |r.value.0.bytes| <= r.value.1 - pos && r.value.0.num == num
    decreases |buf| - pos, 1
  {
    if wireType == 0 then
      match Consume(buf, pos) case None => None case Some((n, after)) => Some((Token(num, 0, n, []), after))
    else if wireType == 1 then
      if pos + 8 <= |buf| then Some((Token(num, 1, Little(buf[pos..pos + 8]), []), pos + 8)) else None
    else if wireType == 2 then
      match Consume(buf, pos)
      case None => None
      case Some((n, after)) => if after + n <= |buf| then Some((Token(num, 2, 0, buf[after..after + n]), after + n)) else None
    else if wireType == 3 then
      match ConsumeGroup(buf, pos, num)
      case None => None
      case Some((end, after)) => Some((Token(num, 3, 0, buf[pos..end]), after))
    else if wireType == 5 then
      if pos + 4 <= |buf| then Some((Token(num, 5, Little(buf[pos..pos + 4]), []), pos + 4)) else None
    else None
  }

  /** A tag and its value. An end tag outside a group has no value and is let pass. */
  function ReadToken(buf: seq<Byte>): (r: Option<(Token, nat)>)
    ensures r.Some? ==> 0 < r.value.1 <= |buf| && |r.value.0.bytes| < |buf| && r.value.0.num >= 1
  {
    match ConsumeTag(buf, 0)
    case None => None
    case Some((num, wireType, after)) =>
      if wireType == 4 then Some((Token(num, 4, 0, []), after)) else ConsumeValue(buf, after, num, wireType)
  }

  // ---- decoding ----

  type Utf8 = seq<Byte> -> bool

  datatype Value =
    | Integer(n: nat)
    | Fixed(n: nat)
    | Message(fields: map<nat, Value>)
    | Text(bytes: seq<Byte>)
    | Base64(bytes: seq<Byte>)
    | Raw(bytes: seq<Byte>)

  function Decode(utf8: Utf8, depth: nat, buf: seq<Byte>): Option<map<nat, Value>>
    decreases |buf|, 1
  {
    if depth > MAX_DEPTH then None else DecodeFrom(utf8, depth, buf, map[])
  }

  function DecodeFrom(utf8: Utf8, depth: nat, buf: seq<Byte>, enc: map<nat, Value>): Option<map<nat, Value>>
    decreases |buf|, 0
  {
    if buf == [] then Some(enc) else
    match ReadToken(buf)
    case None => None
    case Some((t, used)) =>
      DecodeFrom(utf8, depth, buf[used..], if t.wireType == 4 then enc else enc[t.num := Meaning(utf8, depth, t)])
  }

  /** Bytes that read as fields are a message; otherwise they are text if they are UTF-8. */
  function Meaning(utf8: Utf8, depth: nat, t: Token): Value
    decreases |t.bytes|, 2
  {
    if t.wireType == 0 then Integer(t.n)
    else if t.wireType == 1 || t.wireType == 5 then Fixed(t.n)
    else if t.wireType == 3 then Raw(t.bytes)
    else
      var inner := if ConsumeTag(t.bytes, 0).Some? then Decode(utf8, depth + 1, t.bytes) else None;
      if inner.Some? then Message(inner.value) else if utf8(t.bytes) then Text(t.bytes) else Base64(t.bytes)
  }

  // ---- what decoding means ----

  /** The buffer cut into fields, to its last byte. */
  function Tokens(buf: seq<Byte>): Option<seq<Token>>
    decreases |buf|
  {
    if buf == [] then Some([]) else
    match ReadToken(buf)
    case None => None
    case Some((t, used)) =>
      match Tokens(buf[used..]) case None => None case Some(ts) => Some([t] + ts)
  }

  /** The last field with that number, if there is one. */
  function LastOf(ts: seq<Token>, num: nat): Option<Token> {
    if ts == [] then None
    else if ts[|ts| - 1].num == num && ts[|ts| - 1].wireType != 4 then Some(ts[|ts| - 1])
    else LastOf(ts[..|ts| - 1], num)
  }

  ghost predicate Holds(utf8: Utf8, depth: nat, enc: map<nat, Value>, ts: seq<Token>) {
    forall num :: HoldsAt(utf8, depth, enc, ts, num)
  }

  ghost predicate HoldsAt(utf8: Utf8, depth: nat, enc: map<nat, Value>, ts: seq<Token>, num: nat) {
    && (num in enc <==> LastOf(ts, num).Some?)
    && (num in enc ==> enc[num] == Meaning(utf8, depth, LastOf(ts, num).value))
  }

  lemma EnterHolds(utf8: Utf8, depth: nat, enc: map<nat, Value>, ts: seq<Token>, t: Token)
    requires Holds(utf8, depth, enc, ts)
    ensures Holds(utf8, depth, if t.wireType == 4 then enc else enc[t.num := Meaning(utf8, depth, t)], ts + [t])
  {
    hide Meaning;
    var enc' := if t.wireType == 4 then enc else enc[t.num := Meaning(utf8, depth, t)];
    assert (ts + [t])[..|ts|] == ts;
    forall num ensures HoldsAt(utf8, depth, enc', ts + [t], num) {
      assert HoldsAt(utf8, depth, enc, ts, num);
    }
  }

  lemma {:induction false} DecodeFromTokens(utf8: Utf8, depth: nat, buf: seq<Byte>, enc: map<nat, Value>, ts: seq<Token>)
    requires Holds(utf8, depth, enc, ts)
    ensures DecodeFrom(utf8, depth, buf, enc).Some? <==> Tokens(buf).Some?
    ensures Tokens(buf).Some? ==> Holds(utf8, depth, DecodeFrom(utf8, depth, buf, enc).value, ts + Tokens(buf).value)
    decreases |buf|
  {
    hide Meaning, ReadToken, Holds;
    if buf == [] {
      assert ts + [] == ts;
    } else if ReadToken(buf).Some? {
      var (t, used) := ReadToken(buf).value;
      EnterHolds(utf8, depth, enc, ts, t);
      TokenUses(buf);
      var enc' := if t.wireType == 4 then enc else enc[t.num := Meaning(utf8, depth, t)];
      DecodeFromTokens(utf8, depth, buf[used..], enc', ts + [t]);
      if Tokens(buf[used..]).Some? {
        assert ts + Tokens(buf).value == ts + [t] + Tokens(buf[used..]).value;
      }
    }
  }

  lemma TokenUses(buf: seq<Byte>)
    requires ReadToken(buf).Some?
    ensures 0 < ReadToken(buf).value.1 <= |buf|
  {
  }

  /** Decoding succeeds exactly when it is not too deep and the buffer is fields to its last byte;
      and then every field number has the value of the last field with that number. */
  lemma DecodesFields(utf8: Utf8, depth: nat, buf: seq<Byte>)
    ensures Decode(utf8, depth, buf).Some? <==> depth <= MAX_DEPTH && Tokens(buf).Some?
    ensures Decode(utf8, depth, buf).Some? ==> Holds(utf8, depth, Decode(utf8, depth, buf).value, Tokens(buf).value)
  {
    if depth <= MAX_DEPTH {
      DecodeFromTokens(utf8, depth, buf, map[], []);
      if Tokens(buf).Some? {
        assert [] + Tokens(buf).value == Tokens(buf).value;
      }
    }
  }

  // ---- what a sender writes is decoded ----

  /** Well-formed, with numbers of at most 64 bits. */
  predicate Strict(w: Wire) {
    && WellFormed(w)
    && (w.Varint? ==> Varints.Value(w.bytes) < TWO_64)
    && (w.Group? ==> AllStrict(w.fields))
  }

  predicate AllStrict(ws: seq<Wire>) {
    forall i :: 0 <= i < |ws| ==> Strict(ws[i])
  }

  function TokenOf(w: Wire): Token {
    match w
    case Varint(num, bytes) => Token(num, 0, Varints.Value(bytes), [])
    case Fixed64(num, bytes) => Token(num, 1, Little(bytes), [])
    case Delimited(num, bytes) => Token(num, 2, 0, bytes)
    case Group(num, fields) => Token(num, 3, 0, SerializeAll(fields))
    case Fixed32(num, bytes) => Token(num, 5, Little(bytes), [])
  }

  function TokensOf(ws: seq<Wire>): seq<Token> {
    seq(|ws|, i requires 0 <= i < |ws| => TokenOf(ws[i]))
  }

  lemma ConsumesTag(buf: seq<Byte>, pos: nat, num: nat, wireType: nat)
    requires 1 <= num < 0x2000_0000 && wireType < 8 && At(buf, pos, VarintOf(8 * num + wireType))
    ensures ConsumeTag(buf, pos) == Some((num, wireType, pos + |VarintOf(8 * num + wireType)|))
  {
    hide VarintOf, ReadVarint;
    ReadsNumber(buf, pos, 8 * num + wireType);
    assert (8 * num + wireType) / 8 == num && (8 * num + wireType) % 8 == wireType;
  }

  lemma {:induction false} ConsumesBody(buf: seq<Byte>, pos: nat, w: Wire)
    requires Strict(w) && At(buf, pos, Body(w))
    ensures ConsumeValue(buf, pos, w.num, TypeOf(w)) == Some((TokenOf(w), pos + |Body(w)|))
    decreases w, 0
  {
    hide VarintOf, ReadVarint, ConsumeGroup, SerializeAll;
    match w
    case Varint(_, bytes) => ReadsVarint(buf, pos, bytes, MAX_VARINT);
    case Delimited(_, bytes) =>
      AtParts(buf, pos, VarintOf(|bytes|), bytes);
      ReadsNumber(buf, pos, |bytes|);
    case Group(num, fields) =>
      AtParts(buf, pos, SerializeAll(fields), VarintOf(8 * num + 4));
      ConsumesFields(buf, pos, fields, num);
    case _ =>
  }

  lemma GroupGoesOn(buf: seq<Byte>, pos: nat, w: Wire, num: nat)
    requires WellFormed(w) && At(buf, pos, VarintOf(Tag(w)))
    requires ConsumeValue(buf, pos + |VarintOf(Tag(w))|, w.num, TypeOf(w)).Some?
    ensures ConsumeGroup(buf, pos, num)
            == ConsumeGroup(buf, ConsumeValue(buf, pos + |VarintOf(Tag(w))|, w.num, TypeOf(w)).value.1, num)
  {
    hide VarintOf, ConsumeValue, ConsumeTag;
    ConsumesTag(buf, pos, w.num, TypeOf(w));
  }

  lemma GroupEnds(buf: seq<Byte>, pos: nat, num: nat)
    requires 1 <= num < 0x2000_0000 && At(buf, pos, VarintOf(8 * num + 4))
    ensures ConsumeGroup(buf, pos, num) == Some((pos, pos + |VarintOf(8 * num + 4)|))
  {
    hide VarintOf, ConsumeValue, ConsumeTag;
    ConsumesTag(buf, pos, num, 4);
  }

  lemma {:induction false} ConsumesFields(buf: seq<Byte>, pos: nat, ws: seq<Wire>, num: nat)
    requires AllStrict(ws) && 1 <= num < 0x2000_0000 && At(buf, pos, SerializeAll(ws) + VarintOf(8 * num + 4))
    ensures ConsumeGroup(buf, pos, num) == Some((pos + |SerializeAll(ws)|, pos + |SerializeAll(ws)| + |VarintOf(8 * num + 4)|))
    decreases ws
  {
    hide VarintOf, Body, ConsumeValue, ConsumeGroup;
    if ws == [] {
      assert SerializeAll(ws) + VarintOf(8 * num + 4) == VarintOf(8 * num + 4);
      GroupEnds(buf, pos, num);
    } else {
      FirstField(buf, pos, ws, VarintOf(8 * num + 4));
      ConsumesBody(buf, pos + |VarintOf(Tag(ws[0]))|, ws[0]);
      GroupGoesOn(buf, pos, ws[0], num);
      ConsumesFields(buf, pos + |Serialize(ws[0])|, ws[1..], num);
    }
  }

  lemma ReadsField(w: Wire, rest: seq<Byte>)
    requires Strict(w)
    ensures ReadToken(Serialize(w) + rest) == Some((TokenOf(w), |Serialize(w)|))
  {
    hide VarintOf, Body, ConsumeValue, ConsumeTag;
    var buf := Serialize(w) + rest;
    var tag := VarintOf(Tag(w));
    assert At(buf, 0, Serialize(w));
    AtParts(buf, 0, tag, Body(w));
    ConsumesTag(buf, 0, w.num, TypeOf(w));
    ConsumesBody(buf, |tag|, w);
  }

  /** The encoding of any fields is cut into exactly those fields, in order. */
  lemma {:induction false} TokensOfWires(ws: seq<Wire>)
    requires AllStrict(ws)
    ensures Tokens(SerializeAll(ws)) == Some(TokensOf(ws))
    decreases |ws|
  {
    hide Serialize, ReadToken, TokenOf;
    if ws == [] {
      assert TokensOf(ws) == [];
    } else {
      var rest := SerializeAll(ws[1..]);
      ReadsField(ws[0], rest);
      TokenUses(Serialize(ws[0]) + rest);
      assert (Serialize(ws[0]) + rest)[|Serialize(ws[0])|..] == rest;
      TokensOfWires(ws[1..]);
      assert TokensOf(ws) == [TokenOf(ws[0])] + TokensOf(ws[1..]);
    }
  }

  /** Any encoded fields decode, and the last of each number is what is kept. */
  lemma DecodesWires(utf8: Utf8, depth: nat, ws: seq<Wire>)
    requires AllStrict(ws) && depth <= MAX_DEPTH
    ensures Decode(utf8, depth, SerializeAll(ws)).Some?
    ensures Holds(utf8, depth, Decode(utf8, depth, SerializeAll(ws)).value, TokensOf(ws))
  {
    TokensOfWires(ws);
    DecodesFields(utf8, depth, SerializeAll(ws));
  }

  // ---- the loop ----

  /** decodeRawProto: the loop consumes the buffer field by field. */
  method DecodeRawProto(utf8: Utf8, depth: nat, buf: seq<Byte>) returns (enc: Option<map<nat, Value>>)
    ensures enc == Decode(utf8, depth, buf)
    decreases |buf|
  {
    hide ReadToken;
    if depth > MAX_DEPTH {
      return Option.None;
    }
    var fields: map<nat, Value> := map[];
    var rest := buf;
    while rest != []
      invariant |rest| <= |buf| && DecodeFrom(utf8, depth, rest, fields) == Decode(utf8, depth, buf)
      decreases |rest|
    {
      var read := ReadToken(rest);
      if read.None? {
        return Option.None;
      }
      TokenUses(rest);
      var (t, used) := read.value;
      if t.wireType == 2 {
        TokenIsShorter(rest);
        var inner := Option.None;
        if ConsumeTag(t.bytes, 0).Some? {
          inner := DecodeRawProto(utf8, depth + 1, t.bytes);
        }
        var value := if inner.Some? then Message(inner.value) else if utf8(t.bytes) then Text(t.bytes) else Base64(t.bytes);
        fields := fields[t.num := value];
      } else if t.wireType != 4 {
        fields := fields[t.num := Meaning(utf8, depth, t)];
      }
      rest := rest[used..];
    }
    return Some(fields);
  }

  lemma TokenIsShorter(buf: seq<Byte>)
    requires ReadToken(buf).Some?
    ensures |ReadToken(buf).value.0.bytes| < |buf|
  {
  }
}
