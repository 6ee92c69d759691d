// The read loops of the websocket tracer and the messages they record: proxy, decompress and
// addMessage of the websocket type in cmd/run/socket/proxy.go.
module Recorders {
  import opened Bytes
  import opened Frames
  import opened Messages

  // A recorded message: whether it was sent or received, its opcode, and its content, as text or
  // in base 64.
  datatype Content = Text(bytes: seq<Byte>) | Base64(bytes: seq<Byte>)
  datatype Recorded = Recorded(sent: bool, op: nat, content: Content)

  function Direction(isClient: bool, isOutgoing: bool): bool {
    (isClient && isOutgoing) || (!isClient && !isOutgoing)
  }

  function Record(m: Message, sent: bool): Recorded {
    Recorded(sent, m.op, if m.op == TEXT then Text(m.data) else Base64(m.data))
  }

  /** The recorded messages of one direction, in order. */
  function Of(msgs: seq<Recorded>, sent: bool): seq<Recorded> {
    if msgs == [] then [] else
    Of(msgs[..|msgs| - 1], sent) + (if msgs[|msgs| - 1].sent == sent then [msgs[|msgs| - 1]] else [])
  }

  function Records(ms: seq<Message>, sent: bool): seq<Recorded> {
    seq(|ms|, i requires 0 <= i < |ms| => Record(ms[i], sent))
  }

  lemma OfSnoc(msgs: seq<Recorded>, m: Recorded, sent: bool)
    ensures Of(msgs + [m], sent) == Of(msgs, sent) + (if m.sent == sent then [m] else [])
  {
    assert (msgs + [m])[..|msgs|] == msgs;
  }

  lemma {:induction false} OfOthers(msgs: seq<Recorded>, others: seq<Recorded>, sent: bool)
    requires forall m :: m in others ==> m.sent != sent
    ensures Of(msgs + others, sent) == Of(msgs, sent)
    decreases |others|
  {
    if others == [] {
      assert msgs + others == msgs;
    } else {
      var front, last := others[..|others| - 1], others[|others| - 1];
      assert forall m :: m in front ==> m in others;
      OfOthers(msgs, front, sent);
      OfSnoc(msgs + front, last, sent);
      assert msgs + others == msgs + front + [last];
      assert last in others;
    }
  }

  lemma RecordsOne(msgs: seq<Recorded>, before: seq<Recorded>, ms: seq<Message>, m: Message, sent: bool)
    requires Of(msgs, sent) == before + Records(ms, sent)
    ensures Of(msgs + [Record(m, sent)], sent) == before + Records(ms + [m], sent)
  {
    hide Of, Records;
    OfSnoc(msgs, Record(m, sent), sent);
    RecordsSnoc(ms, m, sent);
  }

  lemma RecordsSnoc(ms: seq<Message>, m: Message, sent: bool)
    ensures Records(ms + [m], sent) == Records(ms, sent) + [Record(m, sent)]
  {
    hide Record;
  }

  class Recorder {
    const inflate: Inflate
    const isOutgoing: bool
    const client: Context
    const server: Context
    var clientWindow: seq<Byte>
    var serverWindow: seq<Byte>
    var msgs: seq<Recorded>

    constructor (inflate: Inflate, isOutgoing: bool, client: Context, server: Context)
      ensures this.inflate == inflate && this.isOutgoing == isOutgoing && this.client == client && this.server == server
      ensures clientWindow == [] && serverWindow == [] && msgs == []
    {
      this.inflate, this.isOutgoing, this.client, this.server := inflate, isOutgoing, client, server;
      clientWindow, serverWindow, msgs := [], [], [];
    }

    function Window(isClient: bool): seq<Byte>
      reads this
    {
      if isClient then clientWindow else serverWindow
    }

    function ContextOf(isClient: bool): Context {
      if isClient then client else server
    }

    method AddMessage(m: Message, isClient: bool)
      modifies this`msgs
      ensures msgs == old(msgs) + [Record(m, Direction(isClient, isOutgoing))]
    {
      var content := if m.op == TEXT then Text(m.data) else Base64(m.data);
      var sent := (isClient && isOutgoing) || (!isClient && !isOutgoing);
      msgs := msgs + [Recorded(sent, m.op, content)];
    }

    /** decompress: the data unless the stream is corrupt, and the window moved on. */
    method Decompress(b: seq<Byte>, isClient: bool) returns (ok: bool, data: seq<Byte>)
      modifies this`clientWindow, this`serverWindow
      ensures var (r, window) := Messages.Decompress(inflate, ContextOf(isClient), old(Window(isClient)), b);
              ok == !r.status.Corrupt? && data == r.data && Window(isClient) == window
      ensures Window(!isClient) == old(Window(!isClient))
    {
      var noCtx, bits := if isClient then client.noTakeover else server.noTakeover, if isClient then client.bits else server.bits;
      var window := if isClient then clientWindow else serverWindow;
      var r := inflate(if noCtx then [] else window, b + TAIL);
      data := r.data;
      if r.status.Corrupt? {
        return false, data;
      }
      if !noCtx {
        var maxSize := Power(bits);
        if |data| >= maxSize {
          window := data[|data| - maxSize..];
        } else {
          var totalLen := |window| + |data|;
          window := if totalLen <= maxSize then window + data else window[totalLen - maxSize..] + data;
        }
        if isClient { clientWindow := window; } else { serverWindow := window; }
      }
      return true, data;
    }

    /** Where one direction is: what it has recorded so far, and its window. */
    ghost predicate Matches(isClient: bool, before: seq<Recorded>, s: Loop)
      reads this
    {
      && Window(isClient) == s.window
      && Of(msgs, Direction(isClient, isOutgoing)) == before + Records(s.messages, Direction(isClient, isOutgoing))
    }

    /** The end of a message: decompress it if it is compressed, and record it. */
    method EndMessage(op: nat, compressed: bool, payload: seq<Byte>, isClient: bool, ghost before: seq<Recorded>, ghost s: Loop)
      returns (ok: bool)
      requires Matches(isClient, before, s) && s.ending.Running?
      requires s.op == op && s.compressed == compressed && s.payload == payload
      modifies this
      ensures Matches(isClient, before, Finish(inflate, ContextOf(isClient), s))
      ensures ok == !Finish(inflate, ContextOf(isClient), s).ending.BadStream?
      ensures Window(!isClient) == old(Window(!isClient))
    {
      hide Of, Records, Record, Slide;
      var data := payload;
      ok := true;
      if compressed {
        ok, data := Decompress(payload, isClient);
      }
      if ok {
        RecordsOne(msgs, before, s.messages, Message(op, data), Direction(isClient, isOutgoing));
        AddMessage(Message(op, data), isClient);
      }
    }

    /** readLoop over the frames that readFrame returns one after another, while the other
        direction records its messages: it goes the way RunLoop goes, stops with it, and its
        messages are those of RunLoop, in order. */
    method ReadLoop(isClient: bool, frames: seq<Frame>, others: seq<seq<Recorded>>) returns (ending: Ending, used: nat)
      requires Window(isClient) == [] && |others| == |frames| && AllReadable(frames)
      requires forall k, m :: 0 <= k < |others| && m in others[k] ==> m.sent != Direction(isClient, isOutgoing)
      modifies this
      ensures used <= |frames| && ending == RunLoop(inflate, ContextOf(isClient), frames[..used]).ending
      ensures ending.Running? ==> used == |frames|
      ensures Matches(isClient, Of(old(msgs), Direction(isClient, isOutgoing)), RunLoop(inflate, ContextOf(isClient), frames[..used]))
      ensures Window(!isClient) == old(Window(!isClient))
    {
      var payload: seq<Byte>, op, compressed, first := [], 0, false, true;
      ghost var c := ContextOf(isClient);
      ghost var before := Of(msgs, Direction(isClient, isOutgoing));
      ghost var s := Start();
      ending, used := Running, 0;
      while used < |frames|
        invariant used <= |frames| && s == RunLoop(inflate, c, frames[..used]) && s.ending.Running? && ending.Running?
        invariant Matches(isClient, before, s) && Window(!isClient) == old(Window(!isClient))
        invariant payload == s.payload && op == s.op && compressed == s.compressed && first == s.first
      {
        var frame := frames[used];
        assert frames[..used + 1][..used] == frames[..used] && frame in frames;
        OfOthers(msgs, others[used], Direction(isClient, isOutgoing));
        msgs := msgs + others[used];
        ending, payload, op, compressed, first, s := OneFrame(isClient, frame, payload, op, compressed, first, before, s);
        used := used + 1;
        if !ending.Running? {
          return;
        }
      }
      assert frames[..used] == frames;
    }

    /** The switch on the opcode. */
    method OneFrame(isClient: bool, frame: Frame, payload0: seq<Byte>, op0: nat, compressed0: bool, first0: bool,
                    ghost before: seq<Recorded>, ghost s: Loop)
      returns (ending: Ending, payload: seq<Byte>, op: nat, compressed: bool, first: bool, ghost s': Loop)
      requires Matches(isClient, before, s) && s.ending.Running? && Readable(frame)
      requires payload0 == s.payload && op0 == s.op && compressed0 == s.compressed && first0 == s.first
      modifies this
      ensures s' == Feed(inflate, ContextOf(isClient), s, frame) && ending == s'.ending
      ensures Matches(isClient, before, s') && Window(!isClient) == old(Window(!isClient))
      ensures ending.Running? ==> payload == s'.payload && op == s'.op && compressed == s'.compressed && first == s'.first
    {
      payload, op, compressed, first := payload0, op0, compressed0, first0;
      s' := Feed(inflate, ContextOf(isClient), s, frame);
      ending := Running;
      if frame.op == CONTINUATION {
        if first {
          return UnexpectedContinuation, payload, op, compressed, first, s';
        }
        payload := payload + frame.payload;
      } else if frame.op == TEXT || frame.op == BINARY {
        if !first {
          return UnexpectedData, payload, op, compressed, first, s';
        }
        op, compressed, payload, first := frame.op, frame.rsv1, payload + frame.payload, frame.fin;
      } else {
        ending := if !frame.fin then FragmentedControl else if frame.op == CLOSE then Closed else Running;
        return;
      }
      if frame.fin {
        ghost var added := s.(op := op, compressed := compressed, payload := payload, first := first);
        var ok := EndMessage(op, compressed, payload, isClient, before, added);
        ending := if ok then Running else BadStream;
        payload, first := [], true;
      }
    }
  }
}
