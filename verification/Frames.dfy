// The websocket framing of RFC 6455, sections 5.2 and 5.3, and how readFrame in
// cmd/run/socket/proxy.go reads it.
module Frames {
  import opened Bytes

  const CONTINUATION := 0
  const TEXT := 1
  const BINARY := 2
  const CLOSE := 8
  const PING := 9
  const PONG := 10

  datatype Frame = Frame(fin: bool, rsv1: bool, rsv2: bool, rsv3: bool, op: nat, payload: seq<Byte>)

  predicate Known(op: nat) {
    op == CONTINUATION || op == TEXT || op == BINARY || op == CLOSE || op == PING || op == PONG
  }

  predicate Data(op: nat) { op == TEXT || op == BINARY }

  // ---- the wire format ----

  // The payload length takes 7 bits, 7 + 16, or 7 + 64.
  datatype Form = Short | Medium | Long

  function Extension(form: Form): nat {
    match form case Short => 0 case Medium => 2 case Long => 8
  }

  predicate Fits(form: Form, length: nat) {
    match form case Short => length < 126 case Medium => length < 0x1_0000 case Long => length < 0x1_0000_0000_0000_0000
  }

  function Bit(b: bool): nat { if b then 1 else 0 }

  /** The first byte of a frame. */
  function Head(f: Frame): Byte
    requires f.op < 16
  {
    128 * Bit(f.fin) + 64 * Bit(f.rsv1) + 32 * Bit(f.rsv2) + 16 * Bit(f.rsv3) + f.op
  }

  function Length7(form: Form, length: nat): nat
    requires Fits(form, length)
  {
    match form case Short => length case Medium => 126 case Long => 127
  }

  /** Each byte against the byte of the key in turn; no key leaves the bytes alone. */
  function Masked(payload: seq<Byte>, key: seq<Byte>): (r: seq<Byte>)
    requires |key| == 0 || |key| == 4
    ensures |r| == |payload|
  {
    if key == [] then payload
    else seq(|payload|, i requires 0 <= i < |payload| => XorByte(payload[i], key[i % 4]))
  }

  predicate Framed(f: Frame, form: Form, key: seq<Byte>) {
    f.op < 16 && Fits(form, |f.payload|) && (|key| == 0 || |key| == 4)
  }

  function Preamble(f: Frame, form: Form, key: seq<Byte>): seq<Byte>
    requires Framed(f, form, key)
  {
    [Head(f), 128 * Bit(key != []) + Length7(form, |f.payload|)]
  }

  /** The frame on the wire, its length in the given form, masked with the key if there is one. */
  function Encode(f: Frame, form: Form, key: seq<Byte>): seq<Byte>
    requires Framed(f, form, key)
  {
    Preamble(f, form, key) + BigEndian(|f.payload|, Extension(form)) + key + Masked(f.payload, key)
  }

  /** What the tracer takes: no other extension, a client's frames masked, a known opcode, and
      compression marked on the first frame of data only. */
  predicate Allowed(f: Frame, key: seq<Byte>, isClient: bool) {
    !f.rsv2 && !f.rsv3 && (isClient ==> key != []) && Known(f.op) && (f.rsv1 ==> Data(f.op))
  }

  // ---- reading ----

  // The budget that each check of readFrame finds.
  datatype Limits = Limits(header: nat, extension: nat, key: nat, check: nat, payload: nat)

  datatype Error = OverLimit | EndOfStream | BadExtension | Unmasked | BadOpcode | BadCompression

  datatype Result = Ok(frame: Frame) | Failed(error: Error)

  // used is how many bytes were read, and so charged to the budget.
  datatype Outcome = Outcome(result: Result, used: nat)

  datatype Grab = All | NoBudget | Ended

  /** readFull of size bytes, at bytes into the stream. */
  function Take(input: seq<Byte>, at: nat, size: nat, budget: nat): Grab {
    if budget < size then NoBudget else if at + size <= |input| then All else Ended
  }

  function Stop(input: seq<Byte>, at: nat, grab: Grab): Outcome {
    if grab.NoBudget? then Outcome(Failed(OverLimit), at) else Outcome(Failed(EndOfStream), |input|)
  }

  function ReadFrame(input: seq<Byte>, isClient: bool, b: Limits): Outcome {
    var grab := Take(input, 0, 2, b.header);
    if !grab.All? then Stop(input, 0, grab)
    else
      var h := HeaderCheck(input[0], input[1], isClient);
      if h.Refused? then Outcome(Failed(h.error), 2) else ReadExtension(input, b)
  }

  datatype HeaderResult = Passed | Refused(error: Error)

  function HeaderCheck(h0: Byte, h1: Byte, isClient: bool): HeaderResult {
    if h0 / 32 % 2 == 1 || h0 / 16 % 2 == 1 then Refused(BadExtension)
    else if isClient && h1 < 128 then Refused(Unmasked)
    else if !Known(h0 % 16) then Refused(BadOpcode)
    else Passed
  }

  function ExtensionSize(h1: Byte): nat {
    if h1 % 128 == 126 then 2 else if h1 % 128 == 127 then 8 else 0
  }

  function ReadExtension(input: seq<Byte>, b: Limits): Outcome
    requires |input| >= 2
  {
    var size := ExtensionSize(input[1]);
    if size == 0 then ReadKey(input, b, 2, input[1] % 128)
    else
      var grab := Take(input, 2, size, b.extension);
      if !grab.All? then Stop(input, 2, grab) else ReadKey(input, b, 2 + size, Number(input[2..2 + size]))
  }

  function ReadKey(input: seq<Byte>, b: Limits, at: nat, length: nat): Outcome
    requires |input| >= at >= 2
  {
    if input[1] < 128 then ReadPayload(input, b, at, length, [])
    else
      var grab := Take(input, at, 4, b.key);
      if !grab.All? then Stop(input, at, grab) else ReadPayload(input, b, at + 4, length, input[at..at + 4])
  }

  function ReadPayload(input: seq<Byte>, b: Limits, at: nat, length: nat, key: seq<Byte>): Outcome
    requires |input| >= at >= 2 && (|key| == 0 || |key| == 4)
  {
    if b.check < length then Outcome(Failed(OverLimit), at)
    else
      var grab := Take(input, at, length, b.payload);
      if !grab.All? then Stop(input, at, grab)
      else Outcome(Assemble(input[0], Masked(input[at..at + length], key)), at + length)
  }

  function Assemble(h0: Byte, payload: seq<Byte>): Result {
    var rsv1 := h0 / 64 % 2 == 1;
    if rsv1 && !Data(h0 % 16) then Failed(BadCompression)
    else Ok(Frame(h0 / 128 == 1, rsv1, h0 / 32 % 2 == 1, h0 / 16 % 2 == 1, h0 % 16, payload))
  }

  // ---- the pieces ----

  lemma HeadReadsBack(f: Frame)
    requires f.op < 16
    ensures var h := Head(f);
            && (h / 128 == 1 <==> f.fin) && (h / 64 % 2 == 1 <==> f.rsv1) && (h / 32 % 2 == 1 <==> f.rsv2)
            && (h / 16 % 2 == 1 <==> f.rsv3) && h % 16 == f.op
  {
  }

  /** Masking is its own inverse. */
  lemma MaskedTwice(payload: seq<Byte>, key: seq<Byte>)
    requires |key| == 0 || |key| == 4
    ensures Masked(Masked(payload, key), key) == payload
  {
    if key != [] {
      forall i | 0 <= i < |payload| ensures Masked(Masked(payload, key), key)[i] == payload[i] {
        XorByteTwice(payload[i], key[i % 4]);
      }
    }
  }

  // ---- reading back what was written ----

  /** The budget is enough at each check. */
  predicate Enough(b: Limits, f: Frame, form: Form, key: seq<Byte>) {
    && b.header >= 2 && (form != Short ==> b.extension >= Extension(form)) && (key != [] ==> b.key >= 4)
    && b.check >= |f.payload| && b.payload >= |f.payload|
  }

  lemma EncodeParts(f: Frame, form: Form, key: seq<Byte>, rest: seq<Byte>)
    requires Framed(f, form, key)
    ensures var input := Encode(f, form, key) + rest; var at := 2 + Extension(form);
            && |Encode(f, form, key)| == at + |key| + |f.payload|
            && input[0] == Head(f) && input[1] == 128 * Bit(key != []) + Length7(form, |f.payload|)
            && input[2..at] == BigEndian(|f.payload|, Extension(form))
            && input[at..at + |key|] == key
            && input[at + |key|..at + |key| + |f.payload|] == Masked(f.payload, key)
  {
    hide Masked, BigEndian, Head, Length7;
    Slices(Preamble(f, form, key), BigEndian(|f.payload|, Extension(form)), key, Masked(f.payload, key), rest);
  }

  lemma Slices<T>(a: seq<T>, b: seq<T>, c: seq<T>, d: seq<T>, e: seq<T>)
    ensures var s := a + b + c + d + e; var i := |a| + |b|; var j := i + |c|;
            s[..|a|] == a && s[|a|..i] == b && s[i..j] == c && s[j..j + |d|] == d
  {
  }

  lemma LengthReadsBack(f: Frame, form: Form, key: seq<Byte>)
    requires Framed(f, form, key)
    ensures var h1 := Preamble(f, form, key)[1];
            && ExtensionSize(h1) == Extension(form) && (h1 >= 128 <==> key != [])
            && (if form.Short? then h1 % 128 else Number(BigEndian(|f.payload|, Extension(form)))) == |f.payload|
  {
    hide BigEndian, Number, Head;
    Ranges();
    if !form.Short? {
      NumberOfBigEndian(|f.payload|, Extension(form));
    }
  }

  lemma ReadsHeader(f: Frame, form: Form, key: seq<Byte>, rest: seq<Byte>, isClient: bool, b: Limits)
    requires Framed(f, form, key)
    ensures var input := Encode(f, form, key) + rest;
            && |input| >= 2
            && (HeaderCheck(input[0], input[1], isClient).Passed? <==>
                !f.rsv2 && !f.rsv3 && (isClient ==> key != []) && Known(f.op))
  {
    EncodeParts(f, form, key, rest);
    HeadReadsBack(f);
    LengthReadsBack(f, form, key);
  }

  /** From the payload on: the frame comes back, unmasked. */
  lemma PayloadReadsBack(f: Frame, form: Form, key: seq<Byte>, rest: seq<Byte>, b: Limits)
    requires Framed(f, form, key)
    ensures var input := Encode(f, form, key) + rest; var at := 2 + Extension(form) + |key|;
            && |input| >= at
            && var o := ReadPayload(input, b, at, |f.payload|, key);
            && (o.result.Ok? <==> b.check >= |f.payload| && b.payload >= |f.payload| && (f.rsv1 ==> Data(f.op)))
            && (o.result.Ok? ==> o == Outcome(Ok(f), |Encode(f, form, key)|))
  {
    EncodeParts(f, form, key, rest);
    HeadReadsBack(f);
    MaskedTwice(f.payload, key);
  }

  lemma KeyReadsBack(f: Frame, form: Form, key: seq<Byte>, rest: seq<Byte>, b: Limits)
    requires Framed(f, form, key)
    ensures var input := Encode(f, form, key) + rest; var at := 2 + Extension(form);
            && |input| >= at
            && ReadKey(input, b, at, |f.payload|) ==
               if key == [] || b.key >= 4 then ReadPayload(input, b, at + |key|, |f.payload|, key) else Outcome(Failed(OverLimit), at)
  {
    EncodeParts(f, form, key, rest);
    LengthReadsBack(f, form, key);
  }

  lemma ExtensionReadsBack(f: Frame, form: Form, key: seq<Byte>, rest: seq<Byte>, b: Limits)
    requires Framed(f, form, key)
    ensures var input := Encode(f, form, key) + rest; var at := 2 + Extension(form);
            && |input| >= at
            && ReadExtension(input, b) ==
               if form.Short? || b.extension >= Extension(form) then ReadKey(input, b, at, |f.payload|) else Outcome(Failed(OverLimit), 2)
  {
    EncodeParts(f, form, key, rest);
    LengthReadsBack(f, form, key);
  }

  /** Whatever form the length takes and whatever the key, an encoded frame is read back exactly
      when the tracer takes such frames and the budget is enough, and then it is charged its
      length on the wire, and the bytes after it are left. */
  lemma ReadsBack(f: Frame, form: Form, key: seq<Byte>, rest: seq<Byte>, isClient: bool, b: Limits)
    requires Framed(f, form, key)
    ensures var o := ReadFrame(Encode(f, form, key) + rest, isClient, b);
            && (o.result.Ok? <==> Allowed(f, key, isClient) && Enough(b, f, form, key))
            && (o.result.Ok? ==> o == Outcome(Ok(f), |Encode(f, form, key)|))
  {
    ReadsHeader(f, form, key, rest, isClient, b);
    ExtensionReadsBack(f, form, key, rest, b);
    KeyReadsBack(f, form, key, rest, b);
    PayloadReadsBack(f, form, key, rest, b);
  }

  function Less(n: nat, m: nat): nat { if n < m then 0 else n - m }

  /** What the checks find if nobody else spends from a budget of n. */
  function Alone(n: nat, form: Form, key: seq<Byte>): Limits {
    var k := Less(n, 2 + Extension(form));
    var p := Less(k, |key|);
    Limits(n, Less(n, 2), k, p, p)
  }

  /** The budget at each check, counting down from n. */
  function CountDown(input: seq<Byte>, n: nat): Limits {
    var extension := if |input| >= 2 then ExtensionSize(input[1]) else 0;
    var key := if |input| >= 2 && input[1] >= 128 then 4 else 0;
    var k := Less(n, 2 + extension);
    Limits(n, Less(n, 2), k, Less(k, key), Less(k, key))
  }

  /** With the budget to itself, a reader gets an allowed frame exactly when its length on the
      wire is within the budget. */
  lemma ReadsBackAlone(f: Frame, form: Form, key: seq<Byte>, rest: seq<Byte>, isClient: bool, n: nat)
    requires Framed(f, form, key) && Allowed(f, key, isClient)
    ensures ReadFrame(Encode(f, form, key) + rest, isClient, Alone(n, form, key)).result.Ok? <==> |Encode(f, form, key)| <= n
  {
    ReadsBack(f, form, key, rest, isClient, Alone(n, form, key));
    EncodeParts(f, form, key, rest);
  }

  // ---- and nothing else is read ----

  function FormOf(h1: Byte): Form {
    if ExtensionSize(h1) == 0 then Short else if ExtensionSize(h1) == 2 then Medium else Long
  }

  /** The key a frame was read with, and its length. */
  function KeyAt(input: seq<Byte>, at: nat): seq<Byte>
    requires |input| >= 2 && (input[1] >= 128 ==> |input| >= at + 4)
  {
    if input[1] < 128 then [] else input[at..at + 4]
  }

  lemma HeadIsBack(h: Byte, payload: seq<Byte>)
    requires Assemble(h, payload).Ok?
    ensures var f := Assemble(h, payload).frame; f.op < 16 && Head(f) == h && f.payload == payload
    ensures var f := Assemble(h, payload).frame; (f.rsv1 ==> Data(f.op)) && f.op == h % 16
    ensures var f := Assemble(h, payload).frame; (f.rsv2 <==> h / 32 % 2 == 1) && (f.rsv3 <==> h / 16 % 2 == 1)
  {
    hide Masked;
  }

  lemma LengthIsBack(input: seq<Byte>)
    requires |input| >= 2 && |input| >= 2 + ExtensionSize(input[1])
    ensures var form := FormOf(input[1]); var at := 2 + Extension(form);
            && Extension(form) == ExtensionSize(input[1])
            && var length := if form.Short? then input[1] % 128 else Number(input[2..at]);
            && Fits(form, length) && BigEndian(length, Extension(form)) == input[2..at]
            && input[1] == 128 * Bit(input[1] >= 128) + Length7(form, length)
  {
    hide BigEndian, Number;
    Ranges();
    BigEndianOfNumber(input[2..2 + ExtensionSize(input[1])]);
  }

  function LengthOf(input: seq<Byte>): nat
    requires |input| >= 2 && |input| >= 2 + ExtensionSize(input[1])
  {
    if ExtensionSize(input[1]) == 0 then input[1] % 128 else Number(input[2..2 + ExtensionSize(input[1])])
  }

  /** What a read that succeeds went through. */
  lemma Stages(input: seq<Byte>, isClient: bool, b: Limits)
    requires ReadFrame(input, isClient, b).result.Ok?
    ensures |input| >= 2 && |input| >= 2 + ExtensionSize(input[1]) && HeaderCheck(input[0], input[1], isClient).Passed?
    ensures var at := 2 + ExtensionSize(input[1]);
            && (input[1] >= 128 ==> |input| >= at + 4)
            && var start := at + |KeyAt(input, at)|;
            && start + LengthOf(input) <= |input|
            && ReadFrame(input, isClient, b) ==
               Outcome(Assemble(input[0], Masked(input[start..start + LengthOf(input)], KeyAt(input, at))), start + LengthOf(input))
  {
    hide Masked, Assemble, Number;
  }

  /** The bytes of a frame, put back together from what was read. */
  lemma Reassembled(input: seq<Byte>, form: Form, key: seq<Byte>, f: Frame, used: nat)
    requires 2 + Extension(form) + |key| + |f.payload| == used <= |input|
    requires Framed(f, form, key) && input[0] == Head(f)
    requires input[1] == 128 * Bit(key != []) + Length7(form, |f.payload|)
    requires var at := 2 + Extension(form);
             && input[2..at] == BigEndian(|f.payload|, Extension(form)) && input[at..at + |key|] == key
             && input[at + |key|..used] == Masked(f.payload, key)
    ensures Encode(f, form, key) == input[..used]
  {
    var at := 2 + Extension(form);
    assert input[..used] == input[..2] + input[2..at] + input[at..at + |key|] + input[at + |key|..used];
    assert input[..2] == Preamble(f, form, key);
  }

  /** A frame that was read is what the bytes charged for it encode. */
  lemma OnlyReadsFrames(input: seq<Byte>, isClient: bool, b: Limits)
    requires ReadFrame(input, isClient, b).result.Ok?
    ensures var o := ReadFrame(input, isClient, b);
            && o.used <= |input|
            && exists form, key :: Framed(o.result.frame, form, key) && Allowed(o.result.frame, key, isClient)
                                   && Encode(o.result.frame, form, key) == input[..o.used]
  {
    hide ReadFrame, Masked, Assemble, HeaderCheck, Encode, Number, Framed, Allowed;
    Stages(input, isClient, b);
    var at := 2 + ExtensionSize(input[1]);
    Disassembled(input, isClient, KeyAt(input, at), at + |KeyAt(input, at)| + LengthOf(input));
  }

  /** The frame assembled from the first used bytes encodes to them. */
  lemma Disassembled(input: seq<Byte>, isClient: bool, key: seq<Byte>, used: nat)
    requires |input| >= 2 && |input| >= 2 + ExtensionSize(input[1]) && HeaderCheck(input[0], input[1], isClient).Passed?
    requires var at := 2 + ExtensionSize(input[1]);
             && (input[1] >= 128 ==> |input| >= at + 4) && key == KeyAt(input, at) && used == at + |key| + LengthOf(input) <= |input|
             && Assemble(input[0], Masked(input[at + |key|..used], key)).Ok?
    ensures var f := Assemble(input[0], Masked(input[2 + ExtensionSize(input[1]) + |key|..used], key)).frame;
            var form := FormOf(input[1]);
            Framed(f, form, key) && Allowed(f, key, isClient) && Encode(f, form, key) == input[..used]
  {
    hide Encode, Number, Masked, HeaderCheck, Assemble;
    LengthIsBack(input);
    var wire := input[2 + ExtensionSize(input[1]) + |key|..used];
    AllowedBack(input[0], input[1], Masked(wire, key), isClient, key);
    MaskedTwice(wire, key);
    Reassembled(input, FormOf(input[1]), key, Assemble(input[0], Masked(wire, key)).frame, used);
  }

  lemma AllowedBack(h0: Byte, h1: Byte, payload: seq<Byte>, isClient: bool, key: seq<Byte>)
    requires HeaderCheck(h0, h1, isClient).Passed? && Assemble(h0, payload).Ok? && (key != [] <==> h1 >= 128)
    ensures var f := Assemble(h0, payload).frame;
            Allowed(f, key, isClient) && f.op < 16 && Head(f) == h0 && f.payload == payload
  {
    HeadIsBack(h0, payload);
  }

  /** Never more than the stream has; all of it if the stream ends inside a frame. */
  lemma UsesWhatIsThere(input: seq<Byte>, isClient: bool, b: Limits)
    ensures var o := ReadFrame(input, isClient, b);
            o.used <= |input| && (o.result == Failed(EndOfStream) ==> o.used == |input|)
  {
  }
}
