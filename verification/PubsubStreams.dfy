// The reader and the writer that decode and encode of etc/subtrace-next/pubsub.ts work on.
module PubsubStreams {
  import opened Options
  import opened Bytes
  import opened Varints
  import opened Wires
  import opened Decoding
  import opened Pubsub

  class BinaryReader {
    const buf: seq<Byte>
    var pos: nat

    constructor (buf: seq<Byte>)
      ensures this.buf == buf && pos == 0
    {
      this.buf, pos := buf, 0;
    }

    method Uint32() returns (r: Option<nat>)
      modifies this
      ensures match ReadVarint(buf, old(pos), MAX_VARINT)
              case None => r.None? && pos == old(pos)
              case Some((n, after)) => r == Some(n % TWO_32) && pos == after
    {
      var read := ReadVarint(buf, pos, MAX_VARINT);
      match read
      case None => r := Option.None;
      case Some((n, after)) => r, pos := Some(n % TWO_32), after;
    }

    method SkipField(wireType: nat) returns (ok: bool)
      modifies this
      ensures match Skip(buf, old(pos), wireType, Option.None) case None => !ok case Some(next) => ok && pos == next
    {
      var next := Skip(buf, pos, wireType, Option.None);
      ok := next.Some?;
      if ok {
        pos := next.value;
      }
    }

    /** The loop of decode: the message is filled in field by field, and the reader ends where
        the loop leaves it. */
    method Fill<M>(handle: Handler<M>, end: nat, empty: M) returns (message: Option<M>)
      modifies this
      ensures match Loop(handle, buf, old(pos), end, empty) case None => message.None? case Some((m, after)) => message == Some(m) && pos == after
    {
      var m := empty;
      while pos < end
        invariant Loop(handle, buf, pos, end, m) == Loop(handle, buf, old(pos), end, empty)
        decreases |buf| - pos
      {
        var tag := Uint32();
        if tag.None? {
          return Option.None;
        }
        var done := handle(buf, pos, tag.value, m);
        match done
        case Failed => return Option.None;
        case Done(m', next) =>
          if next < pos || next > |buf| {
            return Option.None;
          }
          m, pos := m', next;
        case NotMine =>
          if tag.value % 8 == 4 || tag.value == 0 {
            break;
          }
          var ok := SkipField(tag.value % 8);
          if !ok {
            return Option.None;
          }
      }
      message := Some(m);
    }
  }

  /** Message.decode. */
  method ReadMessage(bytes: seq<Byte>) returns (message: Option<Wrapper<MessageV1>>)
    ensures message == DecodeMessage(bytes)
  {
    var reader := new BinaryReader(bytes);
    message := reader.Fill(HandleWrapper(DecodeMessageV1), |bytes|, Wrapper(Option.None));
  }

  class BinaryWriter {
    var stack: seq<seq<Byte>>
    var chunk: seq<Byte>

    constructor ()
      ensures stack == [] && chunk == []
    {
      stack, chunk := [], [];
    }

    /** What is written is added to what is there. */
    twostate predicate Added(s: seq<Byte>)
      reads this
    {
      stack == old(stack) && chunk == old(chunk) + s
    }

    method Uint(n: nat)
      modifies this
      ensures Added(VarintOf(n))
    {
      chunk := chunk + VarintOf(n);
    }

    method Bytes(s: seq<Byte>)
      modifies this
      ensures Added(VarintOf(|s|) + s)
    {
      chunk := chunk + (VarintOf(|s|) + s);
    }

    method Fork()
      modifies this
      ensures stack == old(stack) + [old(chunk)] && chunk == []
    {
      stack, chunk := stack + [chunk], [];
    }

    /** What was written since the fork, behind its length. */
    method Join()
      requires stack != []
      modifies this
      ensures stack == old(stack)[..|old(stack)| - 1]
      ensures chunk == old(stack)[|old(stack)| - 1] + (VarintOf(|old(chunk)|) + old(chunk))
    {
      chunk := stack[|stack| - 1] + (VarintOf(|chunk|) + chunk);
      stack := stack[..|stack| - 1];
    }

    /** A field that is a message: its tag, and a fork for what is in it. */
    method Begin(tag: nat)
      modifies this
      ensures stack == old(stack) + [old(chunk) + VarintOf(tag)] && chunk == []
    {
      Uint(tag);
      Fork();
    }

    method End(ghost outer: seq<seq<Byte>>, ghost before: seq<Byte>, ghost tag: nat, ghost s: seq<Byte>)
      requires stack == outer + [before + VarintOf(tag)] && chunk == [] + s
      modifies this
      ensures stack == outer && chunk == before + PutBytes(tag, s)
    {
      assert chunk == s;
      Join();
      assert before + VarintOf(tag) + (VarintOf(|s|) + s) == before + PutBytes(tag, s);
    }

    method Field(tag: nat, s: seq<Byte>)
      modifies this
      ensures Added(PutBytes(tag, s))
    {
      Uint(tag);
      Bytes(s);
    }

    method Integer(tag: nat, n: nat)
      modifies this
      ensures Added(PutInt(tag, n))
    {
      Uint(tag);
      Uint(n);
    }

    method Strings(tag: nat, ss: seq<Str>)
      modifies this
      ensures Added(PutStrings(tag, ss))
    {
      hide VarintOf, PutBytes, PutInt;
      for k := 0 to |ss|
        invariant stack == old(stack) && chunk + PutStrings(tag, ss[k..]) == old(chunk) + PutStrings(tag, ss)
      {
        assert ss[k..][0] == ss[k] && ss[k..][1..] == ss[k + 1..];
        Field(tag, ss[k]);
      }
    }

    method WriteEntry(m: Entry)
      modifies this
      ensures Added(EncodeEntry(m))
    {
      hide VarintOf, PutBytes, PutInt;
      if m.key != [] { Field(10, m.key); }
      if m.value != [] { Field(18, m.value); }
    }

    method WriteLog(m: Log)
      modifies this
      ensures Added(EncodeLog(m))
    {
      hide VarintOf, PutBytes, PutInt, PutStrings;
      Strings(10, m.lines);
      if m.index != 0 { Integer(16, m.index); }
    }

    method WriteTags(tags: map<Str, Str>, keys: seq<Str>)
      modifies this
      ensures Added(PutTags(tags, keys))
    {
      hide VarintOf, PutBytes, PutInt, EncodeEntry;
      for k := 0 to |keys|
        invariant stack == old(stack) && chunk + PutTags(tags, keys[k..]) == old(chunk) + PutTags(tags, keys)
      {
        assert keys[k..][0] == keys[k] && keys[k..][1..] == keys[k + 1..];
        ghost var outer, before := stack, chunk;
        var entry := Entry(keys[k], if keys[k] in tags then tags[keys[k]] else []);
        Begin(10);
        WriteEntry(entry);
        End(outer, before, 10, EncodeEntry(entry));
      }
    }

    method WriteEventV1(m: EventV1, keys: seq<Str>)
      modifies this
      ensures Added(EncodeEventV1(m, keys))
    {
      hide VarintOf, PutBytes, PutInt, PutTags, EncodeLog;
      WriteTags(m.tags, keys);
      if m.harEntryJson != [] { Field(18, m.harEntryJson); }
      if m.log.Some? {
        ghost var outer, before := stack, chunk;
        Begin(26);
        WriteLog(m.log.value);
        End(outer, before, 26, EncodeLog(m.log.value));
      }
    }

    method WriteEvent(m: Wrapper<EventV1>, keys: seq<Str>)
      modifies this
      ensures Added(EncodeEvent(m, keys))
    {
      hide VarintOf, PutBytes, PutInt, EncodeEventV1;
      if m.concreteV1.Some? {
        ghost var outer, before := stack, chunk;
        Begin(10);
        WriteEventV1(m.concreteV1.value, keys);
        End(outer, before, 10, EncodeEventV1(m.concreteV1.value, keys));
      }
    }

    method WriteCall(m: Call)
      modifies this
      ensures Added(EncodeCall(m))
    {
      hide VarintOf, PutBytes, PutInt, PutStrings;
      if m.revision != 0 { Integer(8, m.revision); }
      Strings(18, m.filters);
    }

    method WriteOutcome(m: Outcome)
      modifies this
      ensures Added(EncodeOutcome(m))
    {
      hide VarintOf, PutBytes, PutInt;
      if m.revision != 0 { Integer(8, m.revision); }
      if m.error.Some? { Field(18, m.error.value); }
    }

    method WriteConfigV1(m: ConfigV1)
      modifies this
      ensures Added(EncodeConfigV1(m))
    {
      hide VarintOf, PutBytes, PutInt, EncodeCall, EncodeOutcome;
      if m.call.Some? {
        ghost var outer, before := stack, chunk;
        Begin(10);
        WriteCall(m.call.value);
        End(outer, before, 10, EncodeCall(m.call.value));
      }
      if m.result.Some? {
        ghost var outer, before := stack, chunk;
        Begin(18);
        WriteOutcome(m.result.value);
        End(outer, before, 18, EncodeOutcome(m.result.value));
      }
    }

    method WriteConfig(m: Wrapper<ConfigV1>)
      modifies this
      ensures Added(EncodeConfig(m))
    {
      hide VarintOf, PutBytes, PutInt, EncodeConfigV1;
      if m.concreteV1.Some? {
        ghost var outer, before := stack, chunk;
        Begin(10);
        WriteConfigV1(m.concreteV1.value);
        End(outer, before, 10, EncodeConfigV1(m.concreteV1.value));
      }
    }

    method WriteStatsV1(m: StatsV1)
      modifies this
      ensures Added(EncodeStatsV1(m))
    {
      hide VarintOf, PutBytes, PutInt;
      if m.numPublishers != 0 { Integer(8, m.numPublishers); }
      if m.numSubscribers != 0 { Integer(16, m.numSubscribers); }
    }

    method WriteStats(m: Wrapper<StatsV1>)
      modifies this
      ensures Added(EncodeStats(m))
    {
      hide VarintOf, PutBytes, PutInt, EncodeStatsV1;
      if m.concreteV1.Some? {
        ghost var outer, before := stack, chunk;
        Begin(10);
        WriteStatsV1(m.concreteV1.value);
        End(outer, before, 10, EncodeStatsV1(m.concreteV1.value));
      }
    }

    method WriteMessageV1(m: MessageV1, keys: seq<Str>)
      modifies this
      ensures Added(EncodeMessageV1(m, keys))
    {
      hide VarintOf, PutBytes, PutInt, EncodeEvent, EncodeConfig, EncodeStats;
      if m.event.Some? {
        ghost var outer, before := stack, chunk;
        Begin(10);
        WriteEvent(m.event.value, keys);
        End(outer, before, 10, EncodeEvent(m.event.value, keys));
      }
      if m.config.Some? {
        ghost var outer, before := stack, chunk;
        Begin(18);
        WriteConfig(m.config.value);
        End(outer, before, 18, EncodeConfig(m.config.value));
      }
      if m.stats.Some? {
        ghost var outer, before := stack, chunk;
        Begin(26);
        WriteStats(m.stats.value);
        End(outer, before, 26, EncodeStats(m.stats.value));
      }
    }

    method WriteMessage(m: Wrapper<MessageV1>, keys: seq<Str>)
      modifies this
      ensures Added(EncodeMessage(m, keys))
    {
      hide VarintOf, PutBytes, PutInt, EncodeMessageV1;
      if m.concreteV1.Some? {
        ghost var outer, before := stack, chunk;
        Begin(10);
        WriteMessageV1(m.concreteV1.value, keys);
        End(outer, before, 10, EncodeMessageV1(m.concreteV1.value, keys));
      }
    }
  }
}
