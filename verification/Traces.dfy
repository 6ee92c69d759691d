// From the bytes of one direction of a websocket to its recorded messages: readFrame and
// readLoop of cmd/run/socket/proxy.go together, for a reader whose budget nobody else uses.
module Traces {
  import opened Bytes
  import opened Frames
  import opened Messages

  // A frame as its sender puts it on the wire: with a form for its length, and a key or none.
  datatype Item = Item(frame: Frame, form: Form, key: seq<Byte>)

  predicate Sendable(i: Item, isClient: bool) {
    Framed(i.frame, i.form, i.key) && Allowed(i.frame, i.key, isClient)
  }

  ghost predicate AllSendable(items: seq<Item>, isClient: bool) {
    forall i :: i in items ==> Sendable(i, isClient)
  }

  function Wire(i: Item): seq<Byte> {
    if Framed(i.frame, i.form, i.key) then Encode(i.frame, i.form, i.key) else []
  }

  function AllWire(items: seq<Item>): seq<Byte> {
    if items == [] then [] else Wire(items[0]) + AllWire(items[1..])
  }

  function FramesOf(items: seq<Item>): seq<Frame> {
    seq(|items|, k requires 0 <= k < |items| => items[k].frame)
  }

  /** How many whole frames the budget is enough for. */
  function Within(items: seq<Item>, n: nat): (k: nat)
    ensures k <= |items|
  {
    if items == [] || |Wire(items[0])| > n then 0
    else 1 + Within(items[1..], n - |Wire(items[0])|)
  }

  /** Frame after frame, until one cannot be read. */
  function ReadAll(input: seq<Byte>, isClient: bool, n: nat): (seq<Frame>, Error)
    decreases |input|
  {
    var o := ReadFrame(input, isClient, CountDown(input, n));
    if o.result.Failed? then ([], o.result.error)
    else if 0 < o.used <= |input| then
      var (frames, error) := ReadAll(input[o.used..], isClient, Less(n, o.used));
      ([o.result.frame] + frames, error)
    else ([], EndOfStream)
  }

  lemma CountsDown(i: Item, isClient: bool, rest: seq<Byte>, n: nat)
    requires Sendable(i, isClient)
    ensures CountDown(Wire(i) + rest, n) == Alone(n, i.form, i.key) && |Wire(i)| >= 2
  {
    EncodeParts(i.frame, i.form, i.key, rest);
    LengthReadsBack(i.frame, i.form, i.key);
  }

  lemma ReadsOne(i: Item, isClient: bool, rest: seq<Byte>, n: nat)
    requires Sendable(i, isClient)
    ensures var input := Wire(i) + rest; var o := ReadFrame(input, isClient, CountDown(input, n));
            && (o.result.Ok? <==> |Wire(i)| <= n)
            && (o.result.Ok? ==> o == Outcome(Ok(i.frame), |Wire(i)|))
  {
    CountsDown(i, isClient, rest, n);
    ReadsBackAlone(i.frame, i.form, i.key, rest, isClient, n);
    ReadsBack(i.frame, i.form, i.key, rest, isClient, Alone(n, i.form, i.key));
  }

  lemma ReadsFirst(i: Item, isClient: bool, rest: seq<Byte>, n: nat)
    requires Sendable(i, isClient)
    ensures var size := |Wire(i)|;
            ReadAll(Wire(i) + rest, isClient, n).0 ==
            if size <= n then [i.frame] + ReadAll(rest, isClient, n - size).0 else []
  {
    hide Frames.ReadFrame, CountDown;
    ReadsOne(i, isClient, rest, n);
    CountsDown(i, isClient, rest, n);
    assert (Wire(i) + rest)[|Wire(i)|..] == rest;
  }

  lemma NothingToRead(isClient: bool, n: nat)
    ensures ReadAll(AllWire([]), isClient, n).0 == FramesOf([])[..Within([], n)]
  {
    assert ReadFrame([], isClient, CountDown([], n)).result.Failed?;
  }

  ghost predicate ReadsAll(items: seq<Item>, isClient: bool, n: nat) {
    ReadAll(AllWire(items), isClient, n).0 == FramesOf(items)[..Within(items, n)]
  }

  lemma ReadsOneMore(items: seq<Item>, isClient: bool, n: nat)
    requires items != [] && Sendable(items[0], isClient)
    requires |Wire(items[0])| <= n ==> ReadsAll(items[1..], isClient, n - |Wire(items[0])|)
    ensures ReadsAll(items, isClient, n)
  {
    hide ReadAll, Wire, Sendable;
    ReadsFirst(items[0], isClient, AllWire(items[1..]), n);
    var size := |Wire(items[0])|;
    if size <= n {
      FramesOfFirst(items, Within(items[1..], n - size));
    }
  }

  /** What was sent is read, frame by frame, as far as the budget goes. */
  lemma {:induction false} ReadsWhatWasSent(items: seq<Item>, isClient: bool, n: nat)
    requires AllSendable(items, isClient)
    ensures ReadAll(AllWire(items), isClient, n).0 == FramesOf(items)[..Within(items, n)]
    decreases |items|
  {
    hide ReadAll, AllWire, Within, Sendable;
    if items == [] {
      NothingToRead(isClient, n);
    } else {
      var size := |Wire(items[0])|;
      if size <= n {
        ReadsWhatWasSent(items[1..], isClient, n - size);
      }
      ReadsOneMore(items, isClient, n);
    }
  }

  lemma FramesOfFirst(items: seq<Item>, k: nat)
    requires items != [] && k < |items|
    ensures FramesOf(items)[..k + 1] == [items[0].frame] + FramesOf(items[1..])[..k]
  {
  }

  lemma SendableIsReadable(items: seq<Item>, isClient: bool)
    requires AllSendable(items, isClient)
    ensures AllReadable(FramesOf(items))
  {
    forall f | f in FramesOf(items) ensures Readable(f) {
      var k :| 0 <= k < |items| && items[k].frame == f;
      assert items[k] in items;
    }
  }

  /** Messages cut into any fragments, masked with any keys, with pings and pongs between, are
      recorded as they were sent, if the budget is enough for all the bytes. */
  lemma RecordsWhatWasSent(inflate: Inflate, c: Context, items: seq<Item>, isClient: bool, n: nat, ms: seq<Raw>, part: Part)
    requires AllSendable(items, isClient) && Within(items, n) == |items|
    requires Carries(FramesOf(items), ms, part) && AllSound(inflate, c, ms)
    ensures RunLoop(inflate, c, ReadAll(AllWire(items), isClient, n).0).messages == AllSaid(inflate, c, ms)
  {
    ReadsWhatWasSent(items, isClient, n);
    assert FramesOf(items)[..|items|] == FramesOf(items);
    SendableIsReadable(items, isClient);
    CarriedMeansRunning(inflate, c, FramesOf(items), ms, part);
  }
}
