// What the messages of pubsub.proto mean on the wire, and that decode and encode agree with it.
module PubsubSpec {
  import opened Options
  import opened Bytes
  import opened Varints
  import opened Wires
  import opened Decoding
  import opened Pubsub

  // ---- the meaning of a field to each message ----

  predicate Is(w: Wire, num: nat) { w.Delimited? && w.num == num }

  predicate IsInt(w: Wire, num: nat, n: nat) {
    w.Varint? && w.num == num && n == Value(w.bytes) % TWO_64 <= MAX_SAFE_INTEGER
  }

  /** The bytes are well-formed fields that take one message, usually the empty one, to m. */
  ghost predicate Carries<M(!new)>(step: Step<M>, base: M, bytes: seq<Byte>, m: M) {
    exists ws :: AllWellFormed(ws) && SerializeAll(ws) == bytes && Follows(step, ws, base, m)
  }

  predicate EntryStep(m0: Entry, w: Wire, m1: Entry) {
    if Is(w, 1) then m1 == m0.(key := w.bytes) else if Is(w, 2) then m1 == m0.(value := w.bytes) else m1 == m0
  }

  ghost predicate CarriesEntry(bytes: seq<Byte>, m: Entry) { Carries(EntryStep, NO_ENTRY, bytes, m) }

  predicate LogStep(m0: Log, w: Wire, m1: Log) {
    if Is(w, 1) then m1 == m0.(lines := m0.lines + [w.bytes])
    else if w.Varint? && w.num == 2 then IsInt(w, 2, m1.index) && m1 == m0.(index := m1.index)
    else m1 == m0
  }

  ghost predicate CarriesLog(bytes: seq<Byte>, m: Log) { Carries(LogStep, NO_LOG, bytes, m) }

  ghost predicate EventStep(m0: EventV1, w: Wire, m1: EventV1) {
    if Is(w, 1) then exists e :: CarriesEntry(w.bytes, e) && m1 == m0.(tags := m0.tags[e.key := e.value])
    else if Is(w, 2) then m1 == m0.(harEntryJson := w.bytes)
    else if Is(w, 3) then m1.log.Some? && CarriesLog(w.bytes, m1.log.value) && m1 == m0.(log := m1.log)
    else m1 == m0
  }

  ghost predicate CarriesEventV1(bytes: seq<Byte>, m: EventV1) { Carries(EventStep, NO_EVENT, bytes, m) }

  predicate CallStep(m0: Call, w: Wire, m1: Call) {
    if w.Varint? && w.num == 1 then IsInt(w, 1, m1.revision) && m1 == m0.(revision := m1.revision)
    else if Is(w, 2) then m1 == m0.(filters := m0.filters + [w.bytes])
    else m1 == m0
  }

  ghost predicate CarriesCall(bytes: seq<Byte>, m: Call) { Carries(CallStep, NO_CALL, bytes, m) }

  predicate OutcomeStep(m0: Outcome, w: Wire, m1: Outcome) {
    if w.Varint? && w.num == 1 then IsInt(w, 1, m1.revision) && m1 == m0.(revision := m1.revision)
    else if Is(w, 2) then m1 == m0.(error := Some(w.bytes))
    else m1 == m0
  }

  ghost predicate CarriesOutcome(bytes: seq<Byte>, m: Outcome) { Carries(OutcomeStep, NO_OUTCOME, bytes, m) }

  ghost predicate ConfigStep(m0: ConfigV1, w: Wire, m1: ConfigV1) {
    if Is(w, 1) then m1.call.Some? && CarriesCall(w.bytes, m1.call.value) && m1 == m0.(call := m1.call)
    else if Is(w, 2) then m1.result.Some? && CarriesOutcome(w.bytes, m1.result.value) && m1 == m0.(result := m1.result)
    else m1 == m0
  }

  ghost predicate CarriesConfigV1(bytes: seq<Byte>, m: ConfigV1) { Carries(ConfigStep, NO_CONFIG, bytes, m) }

  predicate StatsStep(m0: StatsV1, w: Wire, m1: StatsV1) {
    if w.Varint? && w.num == 1 then IsInt(w, 1, m1.numPublishers) && m1 == m0.(numPublishers := m1.numPublishers)
    else if w.Varint? && w.num == 2 then IsInt(w, 2, m1.numSubscribers) && m1 == m0.(numSubscribers := m1.numSubscribers)
    else m1 == m0
  }

  ghost predicate CarriesStatsV1(bytes: seq<Byte>, m: StatsV1) { Carries(StatsStep, NO_STATS, bytes, m) }

  type Carrier<!T> = (seq<Byte>, T) -> bool

  ghost predicate WrapperStep<T>(carries: Carrier<T>, m0: Wrapper<T>, w: Wire, m1: Wrapper<T>) {
    if Is(w, 1) then m1.concreteV1.Some? && carries(w.bytes, m1.concreteV1.value) else m1 == m0
  }

  ghost predicate CarriesWrapper<T(!new)>(carries: Carrier<T>, bytes: seq<Byte>, m: Wrapper<T>) {
    Carries((m0, w, m1) => WrapperStep(carries, m0, w, m1), Wrapper(Option.None), bytes, m)
  }

  ghost predicate MessageStep(m0: MessageV1, w: Wire, m1: MessageV1) {
    if Is(w, 1) then m1.event.Some? && CarriesWrapper(CarriesEventV1, w.bytes, m1.event.value) && m1 == m0.(event := m1.event)
    else if Is(w, 2) then m1.config.Some? && CarriesWrapper(CarriesConfigV1, w.bytes, m1.config.value) && m1 == m0.(config := m1.config)
    else if Is(w, 3) then m1.stats.Some? && CarriesWrapper(CarriesStatsV1, w.bytes, m1.stats.value) && m1 == m0.(stats := m1.stats)
    else m1 == m0
  }

  ghost predicate CarriesMessageV1(bytes: seq<Byte>, m: MessageV1) { Carries(MessageStep, NO_MESSAGE, bytes, m) }

  ghost predicate CarriesMessage(bytes: seq<Byte>, m: Wrapper<MessageV1>) { CarriesWrapper(CarriesMessageV1, bytes, m) }

  // ---- decode ----

  lemma GetsBytes(buf: seq<Byte>, pos: nat, w: Wire)
    requires WellFormed(w) && w.Delimited? && At(buf, pos, Body(w))
    ensures GetBytes(buf, pos) == Some((w.bytes, pos + |Body(w)|))
  {
    hide VarintOf, ReadVarint;
    AtParts(buf, pos, VarintOf(|w.bytes|), w.bytes);
    ReadsTag(buf, pos, |w.bytes|);
  }

  lemma GetsInt(buf: seq<Byte>, pos: nat, w: Wire)
    requires WellFormed(w) && w.Varint? && At(buf, pos, Body(w)) && Value(w.bytes) % TWO_64 <= MAX_SAFE_INTEGER
    ensures GetInt(buf, pos) == Some((Value(w.bytes) % TWO_64, pos + |Body(w)|))
  {
    hide ReadVarint;
    ReadsVarint(buf, pos, w.bytes, MAX_VARINT);
  }

  function UpTo<T>(m: T, next: nat): Option<(T, nat)> { Some((m, next)) }

  /** The decoder reads whatever carries a message, to its end, wherever it stands. */
  ghost predicate Reads<T(!new)>(decode: Decoder<T>, carries: Carrier<T>) {
    forall buf, pos: nat, bytes, m :: carries(bytes, m) && At(buf, pos, bytes) ==>
      decode(buf, pos, pos + |bytes|) == UpTo(m, pos + |bytes|)
  }

  lemma GetsMessage<T(!new)>(decode: Decoder<T>, carries: Carrier<T>, buf: seq<Byte>, pos: nat, w: Wire, m: T)
    requires Reads(decode, carries) && WellFormed(w) && w.Delimited? && At(buf, pos, Body(w)) && carries(w.bytes, m)
    ensures GetMessage(decode, buf, pos) == UpTo(m, pos + |Body(w)|)
  {
    hide VarintOf, ReadVarint;
    AtParts(buf, pos, VarintOf(|w.bytes|), w.bytes);
    ReadsTag(buf, pos, |w.bytes|);
  }

  lemma LoopReads<M(!new)>(handle: Handler<M>, step: Step<M>, base: M, buf: seq<Byte>, pos: nat, bytes: seq<Byte>, m: M)
    requires Handles(handle, step) && Carries(step, base, bytes, m) && At(buf, pos, bytes)
    ensures Loop(handle, buf, pos, pos + |bytes|, base) == UpTo(m, pos + |bytes|)
  {
    hide Loop, SerializeAll, Follows, Handles, AllWellFormed;
    var ws :| AllWellFormed(ws) && SerializeAll(ws) == bytes && Follows(step, ws, base, m);
    LoopFollows(handle, step, buf, pos, pos + |bytes|, ws, base, m);
  }

  lemma LoopsRead<M(!new)>(handle: Handler<M>, step: Step<M>, base: M, decode: Decoder<M>, carries: Carrier<M>)
    requires Handles(handle, step)
    requires forall buf, pos: nat, end: nat :: decode(buf, pos, end) == Loop(handle, buf, pos, end, base)
    requires forall bytes, m :: carries(bytes, m) == Carries(step, base, bytes, m)
    ensures Reads(decode, carries)
  {
    forall buf, pos: nat, bytes, m | carries(bytes, m) && At(buf, pos, bytes)
      ensures decode(buf, pos, pos + |bytes|) == UpTo(m, pos + |bytes|)
    {
      LoopReads(handle, step, base, buf, pos, bytes, m);
    }
  }

  /** A value of its field's type and size, in front of the reader. */
  predicate Ready(buf: seq<Byte>, pos: nat, w: Wire) {
    WellFormed(w) && At(buf, pos, Body(w))
  }

  lemma TagIs(w: Wire)
    requires WellFormed(w)
    ensures Tag(w) == 10 <==> Is(w, 1)
    ensures Tag(w) == 18 <==> Is(w, 2)
    ensures Tag(w) == 26 <==> Is(w, 3)
    ensures Tag(w) == 8 <==> w.Varint? && w.num == 1
    ensures Tag(w) == 16 <==> w.Varint? && w.num == 2
  {
  }

  lemma ReadsEntry()
    ensures Reads(DecodeEntry, CarriesEntry)
  {
    forall buf, pos: nat, m0, w, m1 ensures HandlesOne(HandleEntry, EntryStep, buf, pos, m0, w, m1) {
      if Ready(buf, pos, w) {
        TagIs(w);
        if w.Delimited? { GetsBytes(buf, pos, w); }
      }
    }
    LoopsRead(HandleEntry, EntryStep, NO_ENTRY, DecodeEntry, CarriesEntry);
  }

  lemma ReadsLog()
    ensures Reads(DecodeLog, CarriesLog)
  {
    forall buf, pos: nat, m0, w, m1 ensures HandlesOne(HandleLog, LogStep, buf, pos, m0, w, m1) {
      if Ready(buf, pos, w) && LogStep(m0, w, m1) {
        TagIs(w);
        if Is(w, 1) { GetsBytes(buf, pos, w); } else if w.Varint? && w.num == 2 { GetsInt(buf, pos, w); }
      }
    }
    LoopsRead(HandleLog, LogStep, NO_LOG, DecodeLog, CarriesLog);
  }

  lemma ReadsEventV1()
    ensures Reads(DecodeEventV1, CarriesEventV1)
  {
    ReadsEntry();
    ReadsLog();
    forall buf, pos: nat, m0, w, m1 ensures HandlesOne(HandleEventV1, EventStep, buf, pos, m0, w, m1) {
      if Ready(buf, pos, w) && EventStep(m0, w, m1) {
        HandlesEvent(buf, pos, m0, w, m1);
      }
    }
    LoopsRead(HandleEventV1, EventStep, NO_EVENT, DecodeEventV1, CarriesEventV1);
  }

  lemma HandlesEvent(buf: seq<Byte>, pos: nat, m0: EventV1, w: Wire, m1: EventV1)
    requires Reads(DecodeEntry, CarriesEntry) && Reads(DecodeLog, CarriesLog)
    requires Ready(buf, pos, w) && EventStep(m0, w, m1)
    ensures HandlesOne(HandleEventV1, EventStep, buf, pos, m0, w, m1)
  {
    hide DecodeEntry, DecodeLog, CarriesEntry, CarriesLog, Reads, Body;
    TagIs(w);
    if Is(w, 1) {
      var e :| CarriesEntry(w.bytes, e) && m1 == m0.(tags := m0.tags[e.key := e.value]);
      GetsMessage(DecodeEntry, CarriesEntry, buf, pos, w, e);
    } else if Is(w, 2) {
      GetsBytes(buf, pos, w);
    } else if Is(w, 3) {
      GetsMessage(DecodeLog, CarriesLog, buf, pos, w, m1.log.value);
    }
  }

  lemma ReadsCall()
    ensures Reads(DecodeCall, CarriesCall)
  {
    forall buf, pos: nat, m0, w, m1 ensures HandlesOne(HandleCall, CallStep, buf, pos, m0, w, m1) {
      if Ready(buf, pos, w) && CallStep(m0, w, m1) {
        TagIs(w);
        if Is(w, 2) { GetsBytes(buf, pos, w); } else if w.Varint? && w.num == 1 { GetsInt(buf, pos, w); }
      }
    }
    LoopsRead(HandleCall, CallStep, NO_CALL, DecodeCall, CarriesCall);
  }

  lemma ReadsOutcome()
    ensures Reads(DecodeOutcome, CarriesOutcome)
  {
    forall buf, pos: nat, m0, w, m1 ensures HandlesOne(HandleOutcome, OutcomeStep, buf, pos, m0, w, m1) {
      if Ready(buf, pos, w) && OutcomeStep(m0, w, m1) {
        TagIs(w);
        if Is(w, 2) { GetsBytes(buf, pos, w); } else if w.Varint? && w.num == 1 { GetsInt(buf, pos, w); }
      }
    }
    LoopsRead(HandleOutcome, OutcomeStep, NO_OUTCOME, DecodeOutcome, CarriesOutcome);
  }

  lemma ReadsConfigV1()
    ensures Reads(DecodeConfigV1, CarriesConfigV1)
  {
    ReadsCall();
    ReadsOutcome();
    forall buf, pos: nat, m0, w, m1 ensures HandlesOne(HandleConfigV1, ConfigStep, buf, pos, m0, w, m1) {
      if Ready(buf, pos, w) && ConfigStep(m0, w, m1) {
        hide DecodeCall, DecodeOutcome, CarriesCall, CarriesOutcome, Reads, Body;
        TagIs(w);
        if Is(w, 1) {
          GetsMessage(DecodeCall, CarriesCall, buf, pos, w, m1.call.value);
        } else if Is(w, 2) {
          GetsMessage(DecodeOutcome, CarriesOutcome, buf, pos, w, m1.result.value);
        }
      }
    }
    LoopsRead(HandleConfigV1, ConfigStep, NO_CONFIG, DecodeConfigV1, CarriesConfigV1);
  }

  lemma ReadsStatsV1()
    ensures Reads(DecodeStatsV1, CarriesStatsV1)
  {
    forall buf, pos: nat, m0, w, m1 ensures HandlesOne(HandleStatsV1, StatsStep, buf, pos, m0, w, m1) {
      if Ready(buf, pos, w) && StatsStep(m0, w, m1) {
        TagIs(w);
        if w.Varint? && w.num <= 2 { GetsInt(buf, pos, w); }
      }
    }
    LoopsRead(HandleStatsV1, StatsStep, NO_STATS, DecodeStatsV1, CarriesStatsV1);
  }

  lemma ReadsWrapper<T(!new)>(decode: Decoder<T>, carries: Carrier<T>)
    requires Reads(decode, carries)
    ensures Reads(DecodeWrapper(decode), (bytes, m) => CarriesWrapper(carries, bytes, m))
  {
    var step := (m0, w, m1) => WrapperStep(carries, m0, w, m1);
    var handle := HandleWrapper(decode);
    forall buf, pos: nat, m0, w, m1 ensures HandlesOne(handle, step, buf, pos, m0, w, m1) {
      if Ready(buf, pos, w) && WrapperStep(carries, m0, w, m1) {
        TagIs(w);
        if Is(w, 1) { GetsMessage(decode, carries, buf, pos, w, m1.concreteV1.value); }
      }
    }
    LoopsRead(handle, step, Wrapper(Option.None), DecodeWrapper(decode), (bytes, m) => CarriesWrapper(carries, bytes, m));
  }

  lemma ReadsMessageV1()
    ensures Reads(DecodeMessageV1, CarriesMessageV1)
  {
    ReadsEventV1();
    ReadsConfigV1();
    ReadsStatsV1();
    ReadsWrapper(DecodeEventV1, CarriesEventV1);
    ReadsWrapper(DecodeConfigV1, CarriesConfigV1);
    ReadsWrapper(DecodeStatsV1, CarriesStatsV1);
    forall buf, pos: nat, m0, w, m1 ensures HandlesOne(HandleMessageV1, MessageStep, buf, pos, m0, w, m1) {
      if Ready(buf, pos, w) && MessageStep(m0, w, m1) {
        HandlesMessage(buf, pos, m0, w, m1);
      }
    }
    LoopsRead(HandleMessageV1, MessageStep, NO_MESSAGE, DecodeMessageV1, CarriesMessageV1);
  }

  lemma HandlesMessage(buf: seq<Byte>, pos: nat, m0: MessageV1, w: Wire, m1: MessageV1)
    requires Reads(DecodeWrapper(DecodeEventV1), (bytes, m) => CarriesWrapper(CarriesEventV1, bytes, m))
    requires Reads(DecodeWrapper(DecodeConfigV1), (bytes, m) => CarriesWrapper(CarriesConfigV1, bytes, m))
    requires Reads(DecodeWrapper(DecodeStatsV1), (bytes, m) => CarriesWrapper(CarriesStatsV1, bytes, m))
    requires Ready(buf, pos, w) && MessageStep(m0, w, m1)
    ensures HandlesOne(HandleMessageV1, MessageStep, buf, pos, m0, w, m1)
  {
    hide DecodeWrapper, CarriesWrapper, Reads, Body;
    TagIs(w);
    if Is(w, 1) {
      GetsMessage(DecodeWrapper(DecodeEventV1), (bytes, m) => CarriesWrapper(CarriesEventV1, bytes, m), buf, pos, w, m1.event.value);
    } else if Is(w, 2) {
      GetsMessage(DecodeWrapper(DecodeConfigV1), (bytes, m) => CarriesWrapper(CarriesConfigV1, bytes, m), buf, pos, w, m1.config.value);
    } else if Is(w, 3) {
      GetsMessage(DecodeWrapper(DecodeStatsV1), (bytes, m) => CarriesWrapper(CarriesStatsV1, bytes, m), buf, pos, w, m1.stats.value);
    }
  }

  /** Whatever carries a message is decoded to it: fields in any order, the last of a kind
      standing, fields that are not known anywhere at any level. */
  lemma DecodesWhatCarries(bytes: seq<Byte>, m: Wrapper<MessageV1>)
    requires CarriesMessage(bytes, m)
    ensures DecodeMessage(bytes) == Some(m)
  {
    ReadsMessageV1();
    ReadsWrapper(DecodeMessageV1, CarriesMessageV1);
    ReadsAt(DecodeWrapper(DecodeMessageV1), (bytes, m) => CarriesWrapper(CarriesMessageV1, bytes, m), bytes, 0, bytes, m);
  }

  lemma ReadsAt<T(!new)>(decode: Decoder<T>, carries: Carrier<T>, buf: seq<Byte>, pos: nat, bytes: seq<Byte>, m: T)
    requires Reads(decode, carries) && carries(bytes, m) && At(buf, pos, bytes)
    ensures decode(buf, pos, pos + |bytes|) == UpTo(m, pos + |bytes|)
  {
  }

  // ---- encode ----

  lemma PutsBytes(num: nat, s: seq<Byte>)
    ensures PutBytes(8 * num + 2, s) == SerializeAll([Delimited(num, s)])
  {
    SerializeOne(Delimited(num, s));
  }

  lemma PutsInt(num: nat, n: nat)
    requires n <= MAX_SAFE_INTEGER
    ensures PutInt(8 * num, n) == SerializeAll([Varint(num, VarintOf(n))])
    ensures IsVarint(VarintOf(n)) && Value(VarintOf(n)) == n
  {
    SerializeOne(Varint(num, VarintOf(n)));
    Ranges7();
    VarintOfIsVarint(n, MAX_VARINT);
  }

  lemma NoBytes<M(!new)>(step: Step<M>, m: M)
    ensures Carries(step, m, [], m)
  {
    assert AllWellFormed([]) && SerializeAll([]) == [] && Follows(step, [], m, m);
  }

  lemma MovesOn<M(!new)>(step: Step<M>, m0: M, s: seq<Byte>, m1: M, t: seq<Byte>, m2: M)
    requires Carries(step, m0, s, m1) && Carries(step, m1, t, m2)
    ensures Carries(step, m0, s + t, m2)
  {
    var vs :| AllWellFormed(vs) && SerializeAll(vs) == s && Follows(step, vs, m0, m1);
    var ws :| AllWellFormed(ws) && SerializeAll(ws) == t && Follows(step, ws, m1, m2);
    SerializeAppend(vs, ws);
    FollowsAppend(step, vs, ws, m0, m1, m2);
  }

  lemma MovesByBytes<M(!new)>(step: Step<M>, m0: M, num: nat, s: seq<Byte>, m1: M)
    requires 1 <= num < 100 && |s| < TWO_32 && step(m0, Delimited(num, s), m1)
    ensures Carries(step, m0, PutBytes(8 * num + 2, s), m1)
  {
    PutsBytes(num, s);
    FollowsOne(step, Delimited(num, s), m0, m1);
    assert AllWellFormed([Delimited(num, s)]);
  }

  lemma MovesByInt<M(!new)>(step: Step<M>, m0: M, num: nat, n: nat, m1: M)
    requires 1 <= num < 100 && n <= MAX_SAFE_INTEGER && step(m0, Varint(num, VarintOf(n)), m1)
    ensures Carries(step, m0, PutInt(8 * num, n), m1)
  {
    PutsInt(num, n);
    FollowsOne(step, Varint(num, VarintOf(n)), m0, m1);
    assert AllWellFormed([Varint(num, VarintOf(n))]);
  }

  lemma IntIs(num: nat, n: nat)
    requires n <= MAX_SAFE_INTEGER
    ensures IsInt(Varint(num, VarintOf(n)), num, n)
  {
    PutsInt(num, n);
  }

  predicate Short(s: seq<Byte>) { |s| < TWO_32 }

  /** An optional field, by cases. */
  function PutIf(present: bool, s: seq<Byte>): seq<Byte> { if present then s else [] }

  lemma EntryCarried(m: Entry)
    requires Short(EncodeEntry(m))
    ensures CarriesEntry(EncodeEntry(m), m)
  {
    hide VarintOf;
    var m1 := Entry(m.key, []);
    NoBytes(EntryStep, NO_ENTRY);
    NoBytes(EntryStep, m1);
    if m.key != [] { MovesByBytes(EntryStep, NO_ENTRY, 1, m.key, m1); }
    if m.value != [] { MovesByBytes(EntryStep, m1, 2, m.value, m); }
    MovesOn(EntryStep, NO_ENTRY, PutIf(m.key != [], PutBytes(10, m.key)), m1, PutIf(m.value != [], PutBytes(18, m.value)), m);
  }

  lemma {:induction false} LinesCarried(m: Log, ss: seq<Str>)
    requires Short(PutStrings(10, ss))
    ensures Carries(LogStep, m, PutStrings(10, ss), m.(lines := m.lines + ss))
    decreases |ss|
  {
    hide VarintOf;
    NoBytes(LogStep, m);
    if ss == [] {
      assert m.lines + ss == m.lines;
    } else {
      var m1 := m.(lines := m.lines + [ss[0]]);
      MovesByBytes(LogStep, m, 1, ss[0], m1);
      LinesCarried(m1, ss[1..]);
      assert m1.lines + ss[1..] == m.lines + ss;
      MovesOn(LogStep, m, PutBytes(10, ss[0]), m1, PutStrings(10, ss[1..]), m.(lines := m.lines + ss));
    }
  }

  lemma LogCarried(m: Log)
    requires Short(EncodeLog(m)) && m.index <= MAX_SAFE_INTEGER
    ensures CarriesLog(EncodeLog(m), m)
  {
    var m1 := Log(m.lines, 0);
    LinesCarried(NO_LOG, m.lines);
    assert [] + m.lines == m.lines;
    NoBytes(LogStep, m1);
    if m.index != 0 {
      IntIs(2, m.index);
      MovesByInt(LogStep, m1, 2, m.index, m);
    }
    MovesOn(LogStep, NO_LOG, PutStrings(10, m.lines), m1, PutIf(m.index != 0, PutInt(16, m.index)), m);
  }

  /** The map that is left when the entries of the keys have been written into it. */
  function Merged(into: map<Str, Str>, tags: map<Str, Str>, keys: seq<Str>): map<Str, Str>
    decreases |keys|
  {
    if keys == [] then into
    else Merged(into[keys[0] := if keys[0] in tags then tags[keys[0]] else []], tags, keys[1..])
  }

  lemma {:induction false} MergedAt(into: map<Str, Str>, tags: map<Str, Str>, keys: seq<Str>, k: Str)
    requires forall i :: 0 <= i < |keys| ==> keys[i] in tags
    ensures var r := Merged(into, tags, keys);
            && (k in r <==> k in into || k in keys)
            && (k in r ==> r[k] == if k in keys then tags[k] else into[k])
    decreases |keys|
  {
    if keys != [] {
      MergedAt(into[keys[0] := tags[keys[0]]], tags, keys[1..], k);
      assert k in keys <==> k == keys[0] || k in keys[1..];
    }
  }

  /** Every key of the map, in some order. */
  ghost predicate Enumerates(keys: seq<Str>, tags: map<Str, Str>) {
    && (forall i :: 0 <= i < |keys| ==> keys[i] in tags)
    && (forall k :: k in tags ==> k in keys)
  }

  lemma MergedAll(tags: map<Str, Str>, keys: seq<Str>)
    requires Enumerates(keys, tags)
    ensures Merged(map[], tags, keys) == tags
  {
    var r := Merged(map[], tags, keys);
    forall k ensures k in r <==> k in tags {
      MergedAt(map[], tags, keys, k);
    }
    forall k | k in r ensures r[k] == tags[k] {
      MergedAt(map[], tags, keys, k);
    }
  }

  lemma {:induction false} TagsCarried(m: EventV1, tags: map<Str, Str>, keys: seq<Str>)
    requires Short(PutTags(tags, keys))
    ensures Carries(EventStep, m, PutTags(tags, keys), m.(tags := Merged(m.tags, tags, keys)))
    decreases |keys|
  {
    hide VarintOf, EncodeEntry;
    NoBytes(EventStep, m);
    if keys != [] {
      var e := Entry(keys[0], if keys[0] in tags then tags[keys[0]] else []);
      EntryCarried(e);
      var m1 := m.(tags := m.tags[e.key := e.value]);
      MovesByBytes(EventStep, m, 1, EncodeEntry(e), m1);
      TagsCarried(m1, tags, keys[1..]);
      MovesOn(EventStep, m, PutBytes(10, EncodeEntry(e)), m1, PutTags(tags, keys[1..]), m.(tags := Merged(m.tags, tags, keys)));
    }
  }

  predicate SafeEvent(m: EventV1) { m.log.Some? ==> m.log.value.index <= MAX_SAFE_INTEGER }

  lemma EventV1Carried(m: EventV1, keys: seq<Str>)
    requires Short(EncodeEventV1(m, keys)) && SafeEvent(m) && Enumerates(keys, m.tags)
    ensures CarriesEventV1(EncodeEventV1(m, keys), m)
  {
    hide VarintOf, EncodeLog, PutTags;
    var m1 := EventV1(m.tags, [], Option.None);
    var m2 := m1.(harEntryJson := m.harEntryJson);
    TagsCarried(NO_EVENT, m.tags, keys);
    MergedAll(m.tags, keys);
    NoBytes(EventStep, m1);
    NoBytes(EventStep, m2);
    if m.harEntryJson != [] { MovesByBytes(EventStep, m1, 2, m.harEntryJson, m2); }
    MovesOn(EventStep, NO_EVENT, PutTags(m.tags, keys), m1, PutIf(m.harEntryJson != [], PutBytes(18, m.harEntryJson)), m2);
    var log := if m.log.Some? then PutBytes(26, EncodeLog(m.log.value)) else [];
    if m.log.Some? {
      LogCarried(m.log.value);
      MovesByBytes(EventStep, m2, 3, EncodeLog(m.log.value), m);
    }
    MovesOn(EventStep, NO_EVENT, PutTags(m.tags, keys) + PutIf(m.harEntryJson != [], PutBytes(18, m.harEntryJson)), m2, log, m);
  }

  lemma {:induction false} FiltersCarried(m: Call, ss: seq<Str>)
    requires Short(PutStrings(18, ss))
    ensures Carries(CallStep, m, PutStrings(18, ss), m.(filters := m.filters + ss))
    decreases |ss|
  {
    hide VarintOf;
    NoBytes(CallStep, m);
    if ss == [] {
      assert m.filters + ss == m.filters;
    } else {
      var m1 := m.(filters := m.filters + [ss[0]]);
      MovesByBytes(CallStep, m, 2, ss[0], m1);
      FiltersCarried(m1, ss[1..]);
      assert m1.filters + ss[1..] == m.filters + ss;
      MovesOn(CallStep, m, PutBytes(18, ss[0]), m1, PutStrings(18, ss[1..]), m.(filters := m.filters + ss));
    }
  }

  lemma CallCarried(m: Call)
    requires Short(EncodeCall(m)) && m.revision <= MAX_SAFE_INTEGER
    ensures CarriesCall(EncodeCall(m), m)
  {
    var m1 := Call(m.revision, []);
    NoBytes(CallStep, m1);
    if m.revision != 0 {
      IntIs(1, m.revision);
      MovesByInt(CallStep, NO_CALL, 1, m.revision, m1);
    }
    FiltersCarried(m1, m.filters);
    assert [] + m.filters == m.filters;
    MovesOn(CallStep, NO_CALL, PutIf(m.revision != 0, PutInt(8, m.revision)), m1, PutStrings(18, m.filters), m);
  }

  lemma OutcomeCarried(m: Outcome)
    requires Short(EncodeOutcome(m)) && m.revision <= MAX_SAFE_INTEGER
    ensures CarriesOutcome(EncodeOutcome(m), m)
  {
    hide VarintOf;
    var m1 := Outcome(m.revision, Option.None);
    NoBytes(OutcomeStep, m1);
    if m.revision != 0 {
      IntIs(1, m.revision);
      MovesByInt(OutcomeStep, NO_OUTCOME, 1, m.revision, m1);
    }
    var error := if m.error.Some? then PutBytes(18, m.error.value) else [];
    if m.error.Some? { MovesByBytes(OutcomeStep, m1, 2, m.error.value, m); }
    MovesOn(OutcomeStep, NO_OUTCOME, PutIf(m.revision != 0, PutInt(8, m.revision)), m1, error, m);
  }

  predicate SafeConfig(m: ConfigV1) {
    && (m.call.Some? ==> m.call.value.revision <= MAX_SAFE_INTEGER)
    && (m.result.Some? ==> m.result.value.revision <= MAX_SAFE_INTEGER)
  }

  lemma ConfigV1Carried(m: ConfigV1)
    requires Short(EncodeConfigV1(m)) && SafeConfig(m)
    ensures CarriesConfigV1(EncodeConfigV1(m), m)
  {
    hide VarintOf, EncodeCall, EncodeOutcome;
    var m1 := ConfigV1(m.call, Option.None);
    NoBytes(ConfigStep, NO_CONFIG);
    NoBytes(ConfigStep, m1);
    if m.call.Some? {
      CallCarried(m.call.value);
      MovesByBytes(ConfigStep, NO_CONFIG, 1, EncodeCall(m.call.value), m1);
    }
    if m.result.Some? {
      OutcomeCarried(m.result.value);
      MovesByBytes(ConfigStep, m1, 2, EncodeOutcome(m.result.value), m);
    }
    var call := if m.call.Some? then PutBytes(10, EncodeCall(m.call.value)) else [];
    var result := if m.result.Some? then PutBytes(18, EncodeOutcome(m.result.value)) else [];
    MovesOn(ConfigStep, NO_CONFIG, call, m1, result, m);
  }

  predicate SafeStats(m: StatsV1) { m.numPublishers <= MAX_SAFE_INTEGER && m.numSubscribers <= MAX_SAFE_INTEGER }

  lemma StatsV1Carried(m: StatsV1)
    requires SafeStats(m)
    ensures CarriesStatsV1(EncodeStatsV1(m), m)
  {
    var m1 := StatsV1(m.numPublishers, 0);
    NoBytes(StatsStep, NO_STATS);
    NoBytes(StatsStep, m1);
    if m.numPublishers != 0 {
      IntIs(1, m.numPublishers);
      MovesByInt(StatsStep, NO_STATS, 1, m.numPublishers, m1);
    }
    if m.numSubscribers != 0 {
      IntIs(2, m.numSubscribers);
      MovesByInt(StatsStep, m1, 2, m.numSubscribers, m);
    }
    MovesOn(StatsStep, NO_STATS, PutIf(m.numPublishers != 0, PutInt(8, m.numPublishers)), m1,
            PutIf(m.numSubscribers != 0, PutInt(16, m.numSubscribers)), m);
  }

  lemma WrapperCarried<T(!new)>(carries: Carrier<T>, bytes: seq<Byte>, v: T)
    requires Short(bytes) && carries(bytes, v)
    ensures CarriesWrapper(carries, PutBytes(10, bytes), Wrapper(Some(v)))
  {
    MovesByBytes((m0, w, m1) => WrapperStep(carries, m0, w, m1), Wrapper(Option.None), 1, bytes, Wrapper(Some(v)));
  }

  lemma EmptyWrapperCarried<T(!new)>(carries: Carrier<T>)
    ensures CarriesWrapper(carries, [], Wrapper(Option.None))
  {
    NoBytes((m0, w, m1) => WrapperStep(carries, m0, w, m1), Wrapper(Option.None));
  }

  lemma EventCarried(m: Wrapper<EventV1>, keys: seq<Str>)
    requires Short(EncodeEvent(m, keys)) && SafeWrapped(m, SafeEvent) && Keyed(m, keys)
    ensures CarriesWrapper(CarriesEventV1, EncodeEvent(m, keys), m)
  {
    hide EncodeEventV1, CarriesWrapper;
    EmptyWrapperCarried(CarriesEventV1);
    if m.concreteV1.Some? {
      EventV1Carried(m.concreteV1.value, keys);
      WrapperCarried(CarriesEventV1, EncodeEventV1(m.concreteV1.value, keys), m.concreteV1.value);
    }
  }

  lemma ConfigCarried(m: Wrapper<ConfigV1>)
    requires Short(EncodeConfig(m)) && SafeWrapped(m, SafeConfig)
    ensures CarriesWrapper(CarriesConfigV1, EncodeConfig(m), m)
  {
    hide EncodeConfigV1, CarriesWrapper;
    EmptyWrapperCarried(CarriesConfigV1);
    if m.concreteV1.Some? {
      ConfigV1Carried(m.concreteV1.value);
      WrapperCarried(CarriesConfigV1, EncodeConfigV1(m.concreteV1.value), m.concreteV1.value);
    }
  }

  lemma StatsCarried(m: Wrapper<StatsV1>)
    requires Short(EncodeStats(m)) && SafeWrapped(m, SafeStats)
    ensures CarriesWrapper(CarriesStatsV1, EncodeStats(m), m)
  {
    hide EncodeStatsV1, CarriesWrapper;
    EmptyWrapperCarried(CarriesStatsV1);
    if m.concreteV1.Some? {
      StatsV1Carried(m.concreteV1.value);
      WrapperCarried(CarriesStatsV1, EncodeStatsV1(m.concreteV1.value), m.concreteV1.value);
    }
  }

  // ---- whole messages ----

  predicate SafeWrapped<T>(m: Wrapper<T>, safe: T -> bool) { m.concreteV1.Some? ==> safe(m.concreteV1.value) }

  /** The keys are those of the event's tags, in some order. */
  ghost predicate Keyed(m: Wrapper<EventV1>, keys: seq<Str>) {
    m.concreteV1.Some? ==> Enumerates(keys, m.concreteV1.value.tags)
  }

  predicate SafeMessageV1(m: MessageV1) {
    && (m.event.Some? ==> SafeWrapped(m.event.value, SafeEvent))
    && (m.config.Some? ==> SafeWrapped(m.config.value, SafeConfig))
    && (m.stats.Some? ==> SafeWrapped(m.stats.value, SafeStats))
  }

  ghost predicate KeyedMessage(m: Wrapper<MessageV1>, keys: seq<Str>) {
    m.concreteV1.Some? && m.concreteV1.value.event.Some? ==> Keyed(m.concreteV1.value.event.value, keys)
  }

  lemma MessageV1Carried(m: MessageV1, keys: seq<Str>)
    requires Short(EncodeMessageV1(m, keys)) && SafeMessageV1(m) && (m.event.Some? ==> Keyed(m.event.value, keys))
    ensures CarriesMessageV1(EncodeMessageV1(m, keys), m)
  {
    hide VarintOf, EncodeEvent, EncodeConfig, EncodeStats, CarriesWrapper;
    var m1 := MessageV1(m.event, Option.None, Option.None);
    var m2 := MessageV1(m.event, m.config, Option.None);
    var event := if m.event.Some? then PutBytes(10, EncodeEvent(m.event.value, keys)) else [];
    var config := if m.config.Some? then PutBytes(18, EncodeConfig(m.config.value)) else [];
    var stats := if m.stats.Some? then PutBytes(26, EncodeStats(m.stats.value)) else [];
    NoBytes(MessageStep, NO_MESSAGE);
    NoBytes(MessageStep, m1);
    NoBytes(MessageStep, m2);
    if m.event.Some? {
      EventCarried(m.event.value, keys);
      MovesByBytes(MessageStep, NO_MESSAGE, 1, EncodeEvent(m.event.value, keys), m1);
    }
    if m.config.Some? {
      ConfigCarried(m.config.value);
      MovesByBytes(MessageStep, m1, 2, EncodeConfig(m.config.value), m2);
    }
    if m.stats.Some? {
      StatsCarried(m.stats.value);
      MovesByBytes(MessageStep, m2, 3, EncodeStats(m.stats.value), m);
    }
    MovesOn(MessageStep, NO_MESSAGE, event, m1, config, m2);
    MovesOn(MessageStep, NO_MESSAGE, event + config, m2, stats, m);
  }

  /** What encode writes carries the message, in whatever order its tags are enumerated. */
  lemma EncodedIsCarried(m: Wrapper<MessageV1>, keys: seq<Str>)
    requires SafeWrapped(m, SafeMessageV1) && KeyedMessage(m, keys) && Short(EncodeMessage(m, keys))
    ensures CarriesMessage(EncodeMessage(m, keys), m)
  {
    hide EncodeMessageV1, CarriesWrapper;
    EmptyWrapperCarried(CarriesMessageV1);
    if m.concreteV1.Some? {
      MessageV1Carried(m.concreteV1.value, keys);
      WrapperCarried(CarriesMessageV1, EncodeMessageV1(m.concreteV1.value, keys), m.concreteV1.value);
    }
    assert CarriesMessage(EncodeMessage(m, keys), m) == CarriesWrapper(CarriesMessageV1, EncodeMessage(m, keys), m);
  }

  /** Every message whose integers are safe comes back from its encoding: absent fields absent,
      empty ones empty, tags as a map. */
  lemma RoundTrip(m: Wrapper<MessageV1>, keys: seq<Str>)
    requires SafeWrapped(m, SafeMessageV1) && KeyedMessage(m, keys) && Short(EncodeMessage(m, keys))
    ensures DecodeMessage(EncodeMessage(m, keys)) == Some(m)
  {
    EncodedIsCarried(m, keys);
    DecodesWhatCarries(EncodeMessage(m, keys), m);
  }

  /** An integer field is read exactly if it is at most MAX_SAFE_INTEGER; a larger one makes
      decode fail. */
  lemma IntegersUpToSafe(buf: seq<Byte>, pos: nat, n: nat)
    requires n < TWO_64 && At(buf, pos, VarintOf(n))
    ensures GetInt(buf, pos) == if n <= MAX_SAFE_INTEGER then UpTo(n, pos + |VarintOf(n)|) else Option.None
  {
    hide VarintOf, ReadVarint;
    ReadsNumber(buf, pos, n);
  }

  /** No two messages share an encoding. */
  lemma EncodingsDiffer(a: Wrapper<MessageV1>, b: Wrapper<MessageV1>, aKeys: seq<Str>, bKeys: seq<Str>)
    requires SafeWrapped(a, SafeMessageV1) && KeyedMessage(a, aKeys) && Short(EncodeMessage(a, aKeys))
    requires SafeWrapped(b, SafeMessageV1) && KeyedMessage(b, bKeys) && Short(EncodeMessage(b, bKeys))
    ensures EncodeMessage(a, aKeys) == EncodeMessage(b, bKeys) ==> a == b
  {
    RoundTrip(a, aKeys);
    RoundTrip(b, bKeys);
  }
}
