// The messages of etc/subtrace-next/pubsub.ts, their encode and their decode. A string is its
// UTF-8 bytes.
module Pubsub {
  import opened Options
  import opened Bytes
  import opened Varints
  import opened Decoding

  const MAX_SAFE_INTEGER := 0x1f_ffff_ffff_ffff

  type Str = seq<Byte>

  // Event, SetSubscriberConfig, AnnounceStats and Message each hold one optional message.
  datatype Wrapper<T> = Wrapper(concreteV1: Option<T>)

  datatype Entry = Entry(key: Str, value: Str)
  datatype Log = Log(lines: seq<Str>, index: nat)
  datatype EventV1 = EventV1(tags: map<Str, Str>, harEntryJson: seq<Byte>, log: Option<Log>)
  datatype Call = Call(revision: nat, filters: seq<Str>)
  datatype Outcome = Outcome(revision: nat, error: Option<Str>)
  datatype ConfigV1 = ConfigV1(call: Option<Call>, result: Option<Outcome>)
  datatype StatsV1 = StatsV1(numPublishers: nat, numSubscribers: nat)
  datatype MessageV1 = MessageV1(event: Option<Wrapper<EventV1>>, config: Option<Wrapper<ConfigV1>>, stats: Option<Wrapper<StatsV1>>)

  const NO_ENTRY := Entry([], [])
  const NO_LOG := Log([], 0)
  const NO_EVENT := EventV1(map[], [], Option.None)
  const NO_CALL := Call(0, [])
  const NO_OUTCOME := Outcome(0, Option.None)
  const NO_CONFIG := ConfigV1(Option.None, Option.None)
  const NO_STATS := StatsV1(0, 0)
  const NO_MESSAGE := MessageV1(Option.None, Option.None, Option.None)

  // ---- encode ----

  function PutBytes(tag: nat, s: seq<Byte>): seq<Byte> { VarintOf(tag) + (VarintOf(|s|) + s) }

  function PutInt(tag: nat, n: nat): seq<Byte> { VarintOf(tag) + VarintOf(n) }

  function PutStrings(tag: nat, ss: seq<Str>): seq<Byte> {
    if ss == [] then [] else PutBytes(tag, ss[0]) + PutStrings(tag, ss[1..])
  }

  function EncodeEntry(m: Entry): seq<Byte> {
    (if m.key != [] then PutBytes(10, m.key) else []) + (if m.value != [] then PutBytes(18, m.value) else [])
  }

  function EncodeLog(m: Log): seq<Byte> {
    PutStrings(10, m.lines) + (if m.index != 0 then PutInt(16, m.index) else [])
  }

  /** The tags go out in the order in which the object's keys are enumerated. */
  function PutTags(tags: map<Str, Str>, keys: seq<Str>): seq<Byte> {
    if keys == [] then []
    else PutBytes(10, EncodeEntry(Entry(keys[0], if keys[0] in tags then tags[keys[0]] else []))) + PutTags(tags, keys[1..])
  }

  function EncodeEventV1(m: EventV1, keys: seq<Str>): seq<Byte> {
    PutTags(m.tags, keys) + (if m.harEntryJson != [] then PutBytes(18, m.harEntryJson) else [])
    + (if m.log.Some? then PutBytes(26, EncodeLog(m.log.value)) else [])
  }

  function EncodeCall(m: Call): seq<Byte> {
    (if m.revision != 0 then PutInt(8, m.revision) else []) + PutStrings(18, m.filters)
  }

  function EncodeOutcome(m: Outcome): seq<Byte> {
    (if m.revision != 0 then PutInt(8, m.revision) else []) + (if m.error.Some? then PutBytes(18, m.error.value) else [])
  }

  function EncodeConfigV1(m: ConfigV1): seq<Byte> {
    (if m.call.Some? then PutBytes(10, EncodeCall(m.call.value)) else [])
    + (if m.result.Some? then PutBytes(18, EncodeOutcome(m.result.value)) else [])
  }

  function EncodeStatsV1(m: StatsV1): seq<Byte> {
    (if m.numPublishers != 0 then PutInt(8, m.numPublishers) else [])
    + (if m.numSubscribers != 0 then PutInt(16, m.numSubscribers) else [])
  }

  function EncodeEvent(m: Wrapper<EventV1>, keys: seq<Str>): seq<Byte> {
    if m.concreteV1.Some? then PutBytes(10, EncodeEventV1(m.concreteV1.value, keys)) else []
  }

  function EncodeConfig(m: Wrapper<ConfigV1>): seq<Byte> {
    if m.concreteV1.Some? then PutBytes(10, EncodeConfigV1(m.concreteV1.value)) else []
  }

  function EncodeStats(m: Wrapper<StatsV1>): seq<Byte> {
    if m.concreteV1.Some? then PutBytes(10, EncodeStatsV1(m.concreteV1.value)) else []
  }

  function EncodeMessageV1(m: MessageV1, keys: seq<Str>): seq<Byte> {
    (if m.event.Some? then PutBytes(10, EncodeEvent(m.event.value, keys)) else [])
    + (if m.config.Some? then PutBytes(18, EncodeConfig(m.config.value)) else [])
    + (if m.stats.Some? then PutBytes(26, EncodeStats(m.stats.value)) else [])
  }

  function EncodeMessage(m: Wrapper<MessageV1>, keys: seq<Str>): seq<Byte> {
    if m.concreteV1.Some? then PutBytes(10, EncodeMessageV1(m.concreteV1.value, keys)) else []
  }

  // ---- decode ----

  type Decoder<!T> = (seq<Byte>, nat, nat) -> Option<(T, nat)>

  /** reader.bytes() and reader.string(). */
  function GetBytes(buf: seq<Byte>, pos: nat): Option<(seq<Byte>, nat)> {
    match ReadVarint(buf, pos, MAX_VARINT)
    case None => None
    case Some((n, after)) =>
      var end := after + n % TWO_32;
      if end <= |buf| then Some((buf[after..end], end)) else None
  }

  /** longToNumber(reader.uint64()). */
  function GetInt(buf: seq<Byte>, pos: nat): Option<(nat, nat)> {
    match ReadVarint(buf, pos, MAX_VARINT)
    case None => None
    case Some((n, after)) => if n % TWO_64 <= MAX_SAFE_INTEGER then Some((n % TWO_64, after)) else None
  }

  /** X.decode(reader, reader.uint32()). */
  function GetMessage<T>(decode: Decoder<T>, buf: seq<Byte>, pos: nat): Option<(T, nat)> {
    match ReadVarint(buf, pos, MAX_VARINT)
    case None => None
    case Some((n, after)) => decode(buf, after, after + n % TWO_32)
  }

  /** The field is set to what was read. */
  function Set<V, M>(read: Option<(V, nat)>, put: V -> M): Handled<M> {
    match read case None => Failed case Some((v, next)) => Done(put(v), next)
  }

  function HandleEntry(buf: seq<Byte>, pos: nat, tag: nat, m: Entry): Handled<Entry> {
    if tag == 10 then Set(GetBytes(buf, pos), v => m.(key := v))
    else if tag == 18 then Set(GetBytes(buf, pos), v => m.(value := v))
    else NotMine
  }

  function DecodeEntry(buf: seq<Byte>, pos: nat, end: nat): Option<(Entry, nat)> { Loop(HandleEntry, buf, pos, end, NO_ENTRY) }

  function HandleLog(buf: seq<Byte>, pos: nat, tag: nat, m: Log): Handled<Log> {
    if tag == 10 then Set(GetBytes(buf, pos), v => m.(lines := m.lines + [v]))
    else if tag == 16 then Set(GetInt(buf, pos), v => m.(index := v))
    else NotMine
  }

  function DecodeLog(buf: seq<Byte>, pos: nat, end: nat): Option<(Log, nat)> { Loop(HandleLog, buf, pos, end, NO_LOG) }

  function HandleEventV1(buf: seq<Byte>, pos: nat, tag: nat, m: EventV1): Handled<EventV1> {
    if tag == 10 then Set(GetMessage(DecodeEntry, buf, pos), (e: Entry) => m.(tags := m.tags[e.key := e.value]))
    else if tag == 18 then Set(GetBytes(buf, pos), v => m.(harEntryJson := v))
    else if tag == 26 then Set(GetMessage(DecodeLog, buf, pos), v => m.(log := Some(v)))
    else NotMine
  }

  function DecodeEventV1(buf: seq<Byte>, pos: nat, end: nat): Option<(EventV1, nat)> { Loop(HandleEventV1, buf, pos, end, NO_EVENT) }

  function HandleCall(buf: seq<Byte>, pos: nat, tag: nat, m: Call): Handled<Call> {
    if tag == 8 then Set(GetInt(buf, pos), v => m.(revision := v))
    else if tag == 18 then Set(GetBytes(buf, pos), v => m.(filters := m.filters + [v]))
    else NotMine
  }

  function DecodeCall(buf: seq<Byte>, pos: nat, end: nat): Option<(Call, nat)> { Loop(HandleCall, buf, pos, end, NO_CALL) }

  function HandleOutcome(buf: seq<Byte>, pos: nat, tag: nat, m: Outcome): Handled<Outcome> {
    if tag == 8 then Set(GetInt(buf, pos), v => m.(revision := v))
    else if tag == 18 then Set(GetBytes(buf, pos), v => m.(error := Some(v)))
    else NotMine
  }

  function DecodeOutcome(buf: seq<Byte>, pos: nat, end: nat): Option<(Outcome, nat)> { Loop(HandleOutcome, buf, pos, end, NO_OUTCOME) }

  function HandleConfigV1(buf: seq<Byte>, pos: nat, tag: nat, m: ConfigV1): Handled<ConfigV1> {
    if tag == 10 then Set(GetMessage(DecodeCall, buf, pos), v => m.(call := Some(v)))
    else if tag == 18 then Set(GetMessage(DecodeOutcome, buf, pos), v => m.(result := Some(v)))
    else NotMine
  }

  function DecodeConfigV1(buf: seq<Byte>, pos: nat, end: nat): Option<(ConfigV1, nat)> { Loop(HandleConfigV1, buf, pos, end, NO_CONFIG) }

  function HandleStatsV1(buf: seq<Byte>, pos: nat, tag: nat, m: StatsV1): Handled<StatsV1> {
    if tag == 8 then Set(GetInt(buf, pos), v => m.(numPublishers := v))
    else if tag == 16 then Set(GetInt(buf, pos), v => m.(numSubscribers := v))
    else NotMine
  }

  function DecodeStatsV1(buf: seq<Byte>, pos: nat, end: nat): Option<(StatsV1, nat)> { Loop(HandleStatsV1, buf, pos, end, NO_STATS) }

  function HandleWrapper<T>(decode: Decoder<T>): Handler<Wrapper<T>> {
    (buf, pos: nat, tag, m) => if tag == 10 then Set(GetMessage(decode, buf, pos), v => Wrapper(Some(v))) else NotMine
  }

  function DecodeWrapper<T>(decode: Decoder<T>): Decoder<Wrapper<T>> {
    (buf, pos: nat, end: nat) => Loop(HandleWrapper(decode), buf, pos, end, Wrapper(Option.None))
  }

  function HandleMessageV1(buf: seq<Byte>, pos: nat, tag: nat, m: MessageV1): Handled<MessageV1> {
    if tag == 10 then Set(GetMessage(DecodeWrapper(DecodeEventV1), buf, pos), v => m.(event := Some(v)))
    else if tag == 18 then Set(GetMessage(DecodeWrapper(DecodeConfigV1), buf, pos), v => m.(config := Some(v)))
    else if tag == 26 then Set(GetMessage(DecodeWrapper(DecodeStatsV1), buf, pos), v => m.(stats := Some(v)))
    else NotMine
  }

  function DecodeMessageV1(buf: seq<Byte>, pos: nat, end: nat): Option<(MessageV1, nat)> { Loop(HandleMessageV1, buf, pos, end, NO_MESSAGE) }

  /** Message.decode of a whole buffer. */
  function DecodeMessage(buf: seq<Byte>): Option<Wrapper<MessageV1>> {
    match DecodeWrapper(DecodeMessageV1)(buf, 0, |buf|) case None => None case Some((m, _)) => Some(m)
  }
}
