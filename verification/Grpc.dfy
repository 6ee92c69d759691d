// gRPC message bodies: jsonify of tracer/parser.go. A body is Length-Prefixed-Messages
// (gRPC over HTTP2, "Requests"): a compressed flag, the length in four bytes, the message.
module Grpc {
  import opened Options
  import opened Bytes
  import opened RawProtos

  datatype Part = Part(compressed: Byte, data: seq<Byte>)

  // A compressed message is kept as it is; an uncompressed one is decoded.
  datatype Entry = Compressed(data: seq<Byte>) | Decoded(fields: map<nat, Value>)

  predicate Fits(p: Part) { |p.data| < TWO_32 }

  predicate AllFit(ps: seq<Part>) { forall i :: 0 <= i < |ps| ==> Fits(ps[i]) }

  function Prefixed(p: Part): seq<Byte> { [p.compressed] + BigEndian(|p.data|, 4) + p.data }

  function AllPrefixed(ps: seq<Part>): seq<Byte> {
    if ps == [] then [] else Prefixed(ps[0]) + AllPrefixed(ps[1..])
  }

  // ---- the framing ----

  /** The first message of the buffer and what follows it. */
  function Next(buf: seq<Byte>): (r: Option<(Part, seq<Byte>)>)
    ensures r.Some? ==> |r.value.1| < |buf|
  {
    if |buf| < 5 then None else
    var size := Number(buf[1..5]);
    if |buf| < size then None
    else
      var rest := buf[5..];
      if size > |rest| then None else Some((Part(buf[0], rest[..size]), rest[size..]))
  }

  function Parts(buf: seq<Byte>): Option<seq<Part>>
    decreases |buf|
  {
    if buf == [] then Some([]) else
    match Next(buf)
    case None => None
    case Some((p, rest)) => match Parts(rest) case None => None case Some(ps) => Some([p] + ps)
  }

  lemma NextOfPrefixed(p: Part, rest: seq<Byte>)
    requires Fits(p)
    ensures Next(Prefixed(p) + rest) == Some((p, rest))
  {
    var buf := Prefixed(p) + rest;
    Ranges();
    NumberOfBigEndian(|p.data|, 4);
    assert buf[1..5] == BigEndian(|p.data|, 4);
    assert buf[5..] == p.data + rest;
  }

  lemma PrefixedOfNext(buf: seq<Byte>)
    requires Next(buf).Some?
    ensures var (p, rest) := Next(buf).value; Fits(p) && buf == Prefixed(p) + rest
  {
    Ranges();
    BigEndianOfNumber(buf[1..5]);
    var size := Number(buf[1..5]);
    assert buf == [buf[0]] + buf[1..5] + buf[5..][..size] + buf[5..][size..];
  }

  /** A body of messages is cut into those messages, in order. */
  lemma {:induction false} PartsOfPrefixed(ps: seq<Part>)
    requires AllFit(ps)
    ensures Parts(AllPrefixed(ps)) == Some(ps)
    decreases |ps|
  {
    hide Next, Prefixed;
    if ps != [] {
      var rest := AllPrefixed(ps[1..]);
      NextOfPrefixed(ps[0], rest);
      NextShrinks(Prefixed(ps[0]) + rest);
      PartsOfPrefixed(ps[1..]);
      assert ps == [ps[0]] + ps[1..];
    }
  }

  lemma NextShrinks(buf: seq<Byte>)
    requires Next(buf).Some?
    ensures |Next(buf).value.1| < |buf|
  {
  }

  /** And only such a body is accepted. */
  lemma {:induction false} PrefixedOfParts(buf: seq<Byte>)
    requires Parts(buf).Some?
    ensures AllFit(Parts(buf).value) && AllPrefixed(Parts(buf).value) == buf
    decreases |buf|
  {
    hide Next, Prefixed;
    if buf != [] {
      var (p, rest) := Next(buf).value;
      NextShrinks(buf);
      PrefixedOfNext(buf);
      PrefixedOfParts(rest);
      var ps := Parts(buf).value;
      assert ps[0] == p && ps[1..] == Parts(rest).value;
    }
  }

  /** The framing is accepted exactly when the buffer is a concatenation of messages, which are
      then the messages it yields. */
  lemma FramingExactly(buf: seq<Byte>)
    ensures Parts(buf).Some? <==> exists ps :: AllFit(ps) && AllPrefixed(ps) == buf
    ensures forall ps :: AllFit(ps) && AllPrefixed(ps) == buf ==> Parts(buf) == Some(ps)
  {
    if Parts(buf).Some? {
      PrefixedOfParts(buf);
    }
    forall ps | AllFit(ps) && AllPrefixed(ps) == buf ensures Parts(buf) == Some(ps) {
      PartsOfPrefixed(ps);
    }
  }

  // ---- the body ----

  function Enter(utf8: Utf8, p: Part): Option<Entry> {
    if p.compressed != 0 then Some(Compressed(p.data))
    else match Decode(utf8, 1, p.data) case None => None case Some(fields) => Some(Decoded(fields))
  }

  /** All the messages' entries in order, if each has one. */
  function Entries(utf8: Utf8, ps: seq<Part>): Option<seq<Entry>> {
    if ps == [] then Some([]) else
    match Entries(utf8, ps[..|ps| - 1])
    case None => None
    case Some(es) => match Enter(utf8, ps[|ps| - 1]) case None => None case Some(e) => Some(es + [e])
  }

  /** An entry says what its message is: the bytes of a compressed one, and of an uncompressed one
      the last value of each field number. */
  ghost predicate Says(utf8: Utf8, e: Entry, p: Part) {
    match e
    case Compressed(data) => p.compressed != 0 && data == p.data
    case Decoded(fields) => p.compressed == 0 && Tokens(p.data).Some? && Holds(utf8, 1, fields, Tokens(p.data).value)
  }

  /** A body is turned into entries exactly when every uncompressed message is fields to its last
      byte; there is an entry for each message, and it says what the message is. */
  lemma {:induction false} EntriesExactly(utf8: Utf8, ps: seq<Part>)
    ensures Entries(utf8, ps).Some? <==> forall k :: 0 <= k < |ps| && ps[k].compressed == 0 ==> Tokens(ps[k].data).Some?
    ensures Entries(utf8, ps).Some? ==>
              && |Entries(utf8, ps).value| == |ps|
              && forall k :: 0 <= k < |ps| ==> Says(utf8, Entries(utf8, ps).value[k], ps[k])
    decreases |ps|
  {
    hide Tokens, Decode, Holds;
    if ps != [] {
      EntriesExactly(utf8, ps[..|ps| - 1]);
      DecodesFields(utf8, 1, ps[|ps| - 1].data);
    }
  }

  lemma {:induction false} EntriesPrefix(utf8: Utf8, ps: seq<Part>, more: seq<Part>)
    requires Entries(utf8, ps).None?
    ensures Entries(utf8, ps + more).None?
    decreases |more|
  {
    if more == [] {
      assert ps + more == ps;
    } else {
      EntriesPrefix(utf8, ps, more[..|more| - 1]);
      assert (ps + more)[..|ps + more| - 1] == ps + more[..|more| - 1];
    }
  }

  /** jsonify for application/grpc: the loop yields an entry a message, and gives up at the first
      byte that is not framed or the first uncompressed message that is not fields. */
  method Jsonify(utf8: Utf8, body: seq<Byte>) returns (entries: Option<seq<Entry>>)
    ensures entries == match Parts(body) case None => None case Some(ps) => Entries(utf8, ps)
  {
    hide Decode, Next;
    var buf := body;
    var arr: seq<Entry> := [];
    ghost var done: seq<Part> := [];
    if Parts(body).Some? {
      assert done + Parts(body).value == Parts(body).value;
    }
    while buf != []
      invariant Entries(utf8, done) == Some(arr)
      invariant match Parts(buf) case None => Parts(body).None? case Some(ps) => Parts(body) == Some(done + ps)
      decreases |buf|
    {
      var next := Next(buf);
      if next.None? {
        return Option.None;
      }
      NextShrinks(buf);
      var (p, rest) := next.value;
      ghost var ahead := Parts(rest);
      assert (done + [p])[..|done|] == done;
      if ahead.Some? {
        assert done + ([p] + ahead.value) == done + [p] + ahead.value;
      }
      if p.compressed != 0 {
        arr := arr + [Compressed(p.data)];
      } else {
        var fields := DecodeRawProto(utf8, 1, p.data);
        if fields.None? {
          if ahead.Some? { EntriesPrefix(utf8, done + [p], ahead.value); }
          return Option.None;
        }
        arr := arr + [Decoded(fields.value)];
      }
      done, buf := done + [p], rest;
    }
    assert done + [] == done;
    return Some(arr);
  }
}
