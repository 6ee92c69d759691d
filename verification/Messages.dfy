// Messages of a websocket in one direction: fragmentation (RFC 6455, section 5.4) and the
// compression context (RFC 7692, section 7.2), and how the readLoop and decompress of
// cmd/run/socket/proxy.go put messages together.
module Messages {
  import opened Bytes
  import opened Frames

  // What a DEFLATE decoder makes of an input, given a dictionary: the data, and whether the
  // stream was complete, was cut short, or was not DEFLATE at all.
  datatype Status = Complete | CutShort | Corrupt
  datatype Inflated = Inflated(data: seq<Byte>, status: Status)
  type Inflate = (seq<Byte>, seq<Byte>) -> Inflated

  // What was negotiated for the direction.
  datatype Context = Context(noTakeover: bool, bits: nat)

  datatype Message = Message(op: nat, data: seq<Byte>)

  // The four bytes a sender leaves off a compressed message.
  const TAIL: seq<Byte> := [0x00, 0x00, 0xff, 0xff]

  // ---- what was sent ----

  // A message as its sender cut it up; or the beginning of one.
  datatype Raw = Raw(op: nat, compressed: bool, chunks: seq<seq<Byte>>)

  datatype Part = Nothing | Begun(raw: Raw)

  predicate Proper(r: Raw) { Data(r.op) && r.chunks != [] }

  function Join(chunks: seq<seq<Byte>>): seq<Byte> {
    if chunks == [] then [] else Join(chunks[..|chunks| - 1]) + chunks[|chunks| - 1]
  }

  /** The first frame has the opcode and the compression mark, the others are continuations, and
      the last of a whole message is final. */
  function Fragment(r: Raw, whole: bool, i: nat): Frame
    requires i < |r.chunks|
  {
    Frame(whole && i == |r.chunks| - 1, r.compressed && i == 0, false, false, if i == 0 then r.op else CONTINUATION, r.chunks[i])
  }

  function Fragments(r: Raw, whole: bool): seq<Frame> {
    seq(|r.chunks|, i requires 0 <= i < |r.chunks| => Fragment(r, whole, i))
  }

  function AllFragments(ms: seq<Raw>): seq<Frame> {
    if ms == [] then [] else AllFragments(ms[..|ms| - 1]) + Fragments(ms[|ms| - 1], true)
  }

  function Open(part: Part): seq<Frame> {
    if part.Nothing? then [] else Fragments(part.raw, false)
  }

  predicate Control(f: Frame) { f.op == PING || f.op == PONG || f.op == CLOSE }

  function WithoutControl(fs: seq<Frame>): seq<Frame> {
    if fs == [] then []
    else WithoutControl(fs[..|fs| - 1]) + (if Control(fs[|fs| - 1]) then [] else [fs[|fs| - 1]])
  }

  /** The frames are those of the messages, then those of the unfinished one, with pings and
      pongs anywhere between. */
  ghost predicate Carries(fs: seq<Frame>, ms: seq<Raw>, part: Part) {
    && WithoutControl(fs) == AllFragments(ms) + Open(part)
    && (forall m :: m in ms ==> Proper(m)) && (part.Begun? ==> Proper(part.raw))
    && (forall f :: f in fs && Control(f) ==> f.fin && f.op != CLOSE)
  }

  // ---- what the messages say ----

  function Last(s: seq<Byte>, n: nat): seq<Byte> {
    if |s| <= n then s else s[|s| - n..]
  }

  /** The dictionary: with context takeover, the last 2^bits bytes decompressed before. */
  function Dictionary(c: Context, history: seq<Byte>): seq<Byte> {
    if c.noTakeover then [] else Last(history, Power(c.bits))
  }

  function Expand(inflate: Inflate, c: Context, history: seq<Byte>, r: Raw): Inflated {
    inflate(Dictionary(c, history), Join(r.chunks) + TAIL)
  }

  /** All that was decompressed for the messages, in order. */
  function History(inflate: Inflate, c: Context, ms: seq<Raw>): seq<Byte> {
    if ms == [] then [] else
    var h := History(inflate, c, ms[..|ms| - 1]);
    var m := ms[|ms| - 1];
    if m.compressed then h + Expand(inflate, c, h, m).data else h
  }

  function Said(inflate: Inflate, c: Context, before: seq<Raw>, m: Raw): Message {
    Message(m.op, if m.compressed then Expand(inflate, c, History(inflate, c, before), m).data else Join(m.chunks))
  }

  function AllSaid(inflate: Inflate, c: Context, ms: seq<Raw>): seq<Message> {
    if ms == [] then [] else
    AllSaid(inflate, c, ms[..|ms| - 1]) + [Said(inflate, c, ms[..|ms| - 1], ms[|ms| - 1])]
  }

  predicate Sound(inflate: Inflate, c: Context, before: seq<Raw>, m: Raw) {
    m.compressed ==> !Expand(inflate, c, History(inflate, c, before), m).status.Corrupt?
  }

  ghost predicate AllSound(inflate: Inflate, c: Context, ms: seq<Raw>) {
    forall k :: 0 <= k < |ms| ==> Sound(inflate, c, ms[..k], ms[k])
  }

  // ---- the loop ----

  datatype Ending = Running | Closed | UnexpectedContinuation | UnexpectedData | FragmentedControl | BadStream

  datatype Loop = Loop(payload: seq<Byte>, op: nat, compressed: bool, first: bool,
                       window: seq<Byte>, messages: seq<Message>, ending: Ending)

  function Start(): Loop { Loop([], 0, false, true, [], [], Running) }

  /** The three ways decompress moves the window on. */
  function Slide(window: seq<Byte>, data: seq<Byte>, size: nat): seq<Byte> {
    if |data| >= size then data[|data| - size..]
    else if |window| + |data| <= size then window + data
    else window[|window| + |data| - size..] + data
  }

  function Decompress(inflate: Inflate, c: Context, window: seq<Byte>, payload: seq<Byte>): (Inflated, seq<Byte>) {
    var r := inflate(if c.noTakeover then [] else window, payload + TAIL);
    (r, if r.status.Corrupt? || c.noTakeover then window else Slide(window, r.data, Power(c.bits)))
  }

  function Finish(inflate: Inflate, c: Context, s: Loop): Loop {
    if !s.compressed then s.(messages := s.messages + [Message(s.op, s.payload)], payload := [], first := true)
    else
      var (r, window) := Decompress(inflate, c, s.window, s.payload);
      if r.status.Corrupt? then s.(ending := BadStream)
      else s.(messages := s.messages + [Message(s.op, r.data)], payload := [], first := true, window := window)
  }

  function Feed(inflate: Inflate, c: Context, s: Loop, f: Frame): Loop {
    if !s.ending.Running? then s
    else if f.op == CONTINUATION then
      if s.first then s.(ending := UnexpectedContinuation)
      else
        var s' := s.(payload := s.payload + f.payload);
        if f.fin then Finish(inflate, c, s') else s'
    else if Data(f.op) then
      if !s.first then s.(ending := UnexpectedData)
      else
        var s' := s.(op := f.op, compressed := f.rsv1, payload := s.payload + f.payload, first := f.fin);
        if f.fin then Finish(inflate, c, s') else s'
    else if !f.fin then s.(ending := FragmentedControl)
    else if f.op == CLOSE then s.(ending := Closed)
    else s
  }

  function RunLoop(inflate: Inflate, c: Context, fs: seq<Frame>): Loop {
    if fs == [] then Start() else Feed(inflate, c, RunLoop(inflate, c, fs[..|fs| - 1]), fs[|fs| - 1])
  }

  // ---- the window ----

  /** The window that slides is always the last bytes of all that went through it. */
  lemma SlideKeepsLast(history: seq<Byte>, data: seq<Byte>, size: nat)
    ensures Slide(Last(history, size), data, size) == Last(history + data, size)
  {
    if |data| >= size {
      SlideAll(history, data, size);
    } else if |history| <= size {
      SlideOn(history, data, size);
    } else {
      SlideOver(history, data, size);
    }
  }

  /** The data alone fill the window. */
  lemma SlideAll(history: seq<Byte>, data: seq<Byte>, size: nat)
    requires |data| >= size
    ensures data[|data| - size..] == Last(history + data, size)
  {
  }

  /** The window was not full. */
  lemma SlideOn(window: seq<Byte>, data: seq<Byte>, size: nat)
    requires |data| < size && |window| <= size
    ensures Slide(window, data, size) == Last(window + data, size)
  {
  }

  /** The window was full. */
  lemma SlideOver(history: seq<Byte>, data: seq<Byte>, size: nat)
    requires |data| < size < |history|
    ensures Slide(Last(history, size), data, size) == Last(history + data, size)
  {
    var k := |history| - size;
    assert Last(history, size)[|data|..] == history[k + |data|..];
    SlideOn(history[k + |data|..], data, size);
    assert history == history[..k + |data|] + history[k + |data|..];
    assert (history + data)[k + |data|..] == history[k + |data|..] + data;
  }

  // ---- one frame ----

  /** The loop has gone through these messages, and is inside this one. */
  ghost predicate Reached(inflate: Inflate, c: Context, s: Loop, ms: seq<Raw>, part: Part) {
    && s.ending.Running?
    && s.messages == AllSaid(inflate, c, ms)
    && s.window == Dictionary(c, History(inflate, c, ms))
    && (s.first <==> part.Nothing?)
    && s.payload == (if part.Nothing? then [] else Join(part.raw.chunks))
    && (part.Begun? ==> s.op == part.raw.op && s.compressed == part.raw.compressed)
  }

  /** What readFrame can return. */
  predicate Readable(f: Frame) { Known(f.op) && !f.rsv2 && !f.rsv3 && (f.rsv1 ==> Data(f.op)) }

  predicate Continues(part: Part, f: Frame) {
    if part.Nothing? then Data(f.op) else f.op == CONTINUATION
  }

  /** The message in progress once this frame is added to it. */
  function Extended(part: Part, f: Frame): Raw {
    if part.Nothing? then Raw(f.op, f.rsv1, [f.payload]) else part.raw.(chunks := part.raw.chunks + [f.payload])
  }

  lemma JoinSnoc(chunks: seq<seq<Byte>>, chunk: seq<Byte>)
    ensures Join(chunks + [chunk]) == Join(chunks) + chunk
  {
    assert (chunks + [chunk])[..|chunks|] == chunks;
  }

  lemma FinishReaches(inflate: Inflate, c: Context, s: Loop, ms: seq<Raw>, m: Raw)
    requires s.ending.Running? && s.messages == AllSaid(inflate, c, ms) && s.window == Dictionary(c, History(inflate, c, ms))
    requires s.op == m.op && s.compressed == m.compressed && s.payload == Join(m.chunks)
    ensures var s' := Finish(inflate, c, s);
            if Sound(inflate, c, ms, m) then Reached(inflate, c, s', ms + [m], Nothing) else s' == s.(ending := BadStream)
  {
    assert (ms + [m])[..|ms|] == ms;
    var h := History(inflate, c, ms);
    if m.compressed && Sound(inflate, c, ms, m) && !c.noTakeover {
      SlideKeepsLast(h, Expand(inflate, c, h, m).data, Power(c.bits));
    }
  }

  /** A frame that continues the message in progress. */
  lemma FeedReaches(inflate: Inflate, c: Context, s: Loop, ms: seq<Raw>, part: Part, f: Frame)
    requires Reached(inflate, c, s, ms, part) && Readable(f) && Continues(part, f)
    ensures var s' := Feed(inflate, c, s, f); var m := Extended(part, f);
            if !f.fin then Reached(inflate, c, s', ms, Begun(m))
            else if Sound(inflate, c, ms, m) then Reached(inflate, c, s', ms + [m], Nothing)
            else s'.ending == BadStream && s'.messages == s.messages
  {
    var m := Extended(part, f);
    if part.Nothing? {
      JoinSnoc([], f.payload);
      assert [] + [f.payload] == [f.payload];
    } else {
      JoinSnoc(part.raw.chunks, f.payload);
    }
    if f.fin {
      var s' := if part.Nothing? then s.(op := f.op, compressed := f.rsv1, payload := s.payload + f.payload, first := f.fin)
                else s.(payload := s.payload + f.payload);
      FinishReaches(inflate, c, s', ms, m);
    }
  }

  /** That frame is the next fragment of the message. */
  lemma FragmentsSnoc(part: Part, f: Frame)
    requires Readable(f) && Continues(part, f) && (part.Begun? ==> Proper(part.raw))
    ensures Open(part) + [f] == Fragments(Extended(part, f), f.fin) && Proper(Extended(part, f))
  {
    var m := Extended(part, f);
    forall i | 0 <= i < |m.chunks| ensures (Open(part) + [f])[i] == Fragments(m, f.fin)[i] {
    }
  }

  /** A frame that leaves the loop running. */
  predicate Welcome(part: Part, f: Frame) {
    if Control(f) then f.fin && f.op != CLOSE else Continues(part, f)
  }

  function AfterMessages(ms: seq<Raw>, part: Part, f: Frame): seq<Raw> {
    if Control(f) || !f.fin then ms else ms + [Extended(part, f)]
  }

  function AfterPart(part: Part, f: Frame): Part {
    if Control(f) then part else if f.fin then Nothing else Begun(Extended(part, f))
  }

  lemma WithoutControlSnoc(fs: seq<Frame>, f: Frame)
    ensures WithoutControl(fs + [f]) == WithoutControl(fs) + (if Control(f) then [] else [f])
  {
    assert (fs + [f])[..|fs|] == fs;
  }

  lemma CarriesSnoc(fs: seq<Frame>, ms: seq<Raw>, part: Part, f: Frame)
    requires Carries(fs, ms, part) && Readable(f) && Welcome(part, f)
    ensures Carries(fs + [f], AfterMessages(ms, part, f), AfterPart(part, f))
  {
    hide Fragments, AllFragments, WithoutControl;
    WithoutControlSnoc(fs, f);
    assert forall g :: g in fs + [f] ==> g in fs || g == f;
    if !Control(f) {
      FragmentsSnoc(part, f);
      SaidSnoc(ms, part, f);
    }
  }

  /** The fragment is written where the next message, or the next part of it, begins. */
  lemma SaidSnoc(ms: seq<Raw>, part: Part, f: Frame)
    requires Open(part) + [f] == Fragments(Extended(part, f), f.fin) && !Control(f)
    ensures AllFragments(ms) + Open(part) + [f] == AllFragments(AfterMessages(ms, part, f)) + Open(AfterPart(part, f))
  {
    hide Fragments;
    var m := Extended(part, f);
    assert AllFragments(ms) + Open(part) + [f] == AllFragments(ms) + (Open(part) + [f]);
    if f.fin {
      assert (ms + [m])[..|ms|] == ms;
      assert AllFragments(ms + [m]) + [] == AllFragments(ms) + Fragments(m, true);
    }
  }

  // ---- all frames ----

  ghost predicate AllReadable(fs: seq<Frame>) { forall f :: f in fs ==> Readable(f) }

  /** A loop that is still running has recorded exactly what the messages carried by its frames
      say: each with its first frame's opcode and compression, its payloads in order, and the
      last bytes decompressed before it as dictionary. */
  lemma {:induction false} RunningMeansCarried(inflate: Inflate, c: Context, fs: seq<Frame>)
    returns (ms: seq<Raw>, part: Part)
    requires AllReadable(fs) && RunLoop(inflate, c, fs).ending.Running?
    ensures Carries(fs, ms, part) && Reached(inflate, c, RunLoop(inflate, c, fs), ms, part)
    ensures AllSound(inflate, c, ms)
    decreases |fs|
  {
    hide Carries, Reached, Sound, Feed, AfterMessages, AfterPart;
    if fs == [] {
      NothingCarried(inflate, c);
      ms, part := [], Nothing;
    } else {
      var n := |fs| - 1;
      var f := fs[n];
      KeepsRunning(inflate, c, fs);
      ms, part := RunningMeansCarried(inflate, c, fs[..n]);
      assert Readable(f) && fs == fs[..n] + [f];
      OneMoreFrame(inflate, c, RunLoop(inflate, c, fs[..n]), ms, part, f);
      CarriesSnoc(fs[..n], ms, part, f);
      ms, part := AfterMessages(ms, part, f), AfterPart(part, f);
    }
  }

  lemma NothingCarried(inflate: Inflate, c: Context)
    ensures Carries([], [], Nothing) && Reached(inflate, c, Start(), [], Nothing)
  {
  }

  lemma KeepsRunning(inflate: Inflate, c: Context, fs: seq<Frame>)
    requires fs != [] && RunLoop(inflate, c, fs).ending.Running?
    ensures RunLoop(inflate, c, fs[..|fs| - 1]).ending.Running?
  {
  }

  /** A frame after which the loop still runs was welcome, and the loop follows it. */
  lemma OneMoreFrame(inflate: Inflate, c: Context, s: Loop, ms: seq<Raw>, part: Part, f: Frame)
    requires Reached(inflate, c, s, ms, part) && Readable(f) && AllSound(inflate, c, ms)
    requires Feed(inflate, c, s, f).ending.Running?
    ensures Welcome(part, f) && AllSound(inflate, c, AfterMessages(ms, part, f))
    ensures Reached(inflate, c, Feed(inflate, c, s, f), AfterMessages(ms, part, f), AfterPart(part, f))
  {
    hide AllSaid, History, Sound, AllSound, Finish;
    if Continues(part, f) {
      FeedReaches(inflate, c, s, ms, part, f);
      SoundSnoc(inflate, c, ms, Extended(part, f));
    }
  }

  lemma SoundSnoc(inflate: Inflate, c: Context, ms: seq<Raw>, m: Raw)
    requires AllSound(inflate, c, ms)
    ensures Sound(inflate, c, ms, m) <==> AllSound(inflate, c, ms + [m])
  {
    forall k | 0 <= k < |ms| ensures Sound(inflate, c, (ms + [m])[..k], (ms + [m])[k]) {
      assert (ms + [m])[..k] == ms[..k];
    }
    assert (ms + [m])[..|ms|] == ms;
    if AllSound(inflate, c, ms + [m]) {
      assert Sound(inflate, c, (ms + [m])[..|ms|], (ms + [m])[|ms|]);
    }
  }

  function Shorter(r: Raw): Part
    requires r.chunks != []
  {
    if |r.chunks| == 1 then Nothing else Begun(r.(chunks := r.chunks[..|r.chunks| - 1]))
  }

  /** The last fragment of a message, and the message without it. */
  lemma LastFragment(r: Raw, whole: bool)
    requires Proper(r)
    ensures var f := Fragment(r, whole, |r.chunks| - 1);
            && Readable(f) && Continues(Shorter(r), f) && Extended(Shorter(r), f) == r && f.fin == whole && !Control(f)
            && Fragments(r, whole) == Open(Shorter(r)) + [f] && (Shorter(r).Begun? ==> Proper(Shorter(r).raw))
  {
    var f := Fragment(r, whole, |r.chunks| - 1);
    assert r.chunks == r.chunks[..|r.chunks| - 1] + [r.chunks[|r.chunks| - 1]];
    if |r.chunks| == 1 {
      assert r.chunks == [f.payload];
    } else {
      FragmentsSnoc(Shorter(r), f);
    }
  }

  /** The message that the last fragment of data belongs to, and the messages before it. */
  function LastOf(ms: seq<Raw>, part: Part): Raw
    requires part.Nothing? ==> ms != []
  {
    if part.Begun? then part.raw else ms[|ms| - 1]
  }

  function BeforeLast(ms: seq<Raw>, part: Part): seq<Raw> {
    if part.Begun? || ms == [] then ms else ms[..|ms| - 1]
  }

  lemma SplitLast(ms: seq<Raw>, part: Part)
    requires (forall m :: m in ms ==> Proper(m)) && (part.Begun? ==> Proper(part.raw)) && (part.Nothing? ==> ms != [])
    ensures var r := LastOf(ms, part);
            && Proper(r) && (forall m :: m in BeforeLast(ms, part) ==> Proper(m))
            && AllFragments(ms) + Open(part)
               == AllFragments(BeforeLast(ms, part)) + Open(Shorter(r)) + [Fragment(r, part.Nothing?, |r.chunks| - 1)]
  {
    var r := LastOf(ms, part);
    if part.Nothing? {
      assert ms[|ms| - 1] in ms;
    }
    LastFragment(r, part.Nothing?);
    LastFragments(ms, part);
    Associate(AllFragments(BeforeLast(ms, part)), Open(Shorter(r)), Fragment(r, part.Nothing?, |r.chunks| - 1));
  }

  lemma LastFragments(ms: seq<Raw>, part: Part)
    requires part.Nothing? ==> ms != []
    ensures AllFragments(ms) + Open(part) == AllFragments(BeforeLast(ms, part)) + Fragments(LastOf(ms, part), part.Nothing?)
  {
  }

  lemma Associate<T>(a: seq<T>, b: seq<T>, x: T)
    ensures a + (b + [x]) == a + b + [x]
  {
  }

  lemma SameLast<T>(a: seq<T>, x: T, b: seq<T>, y: T)
    requires a + [x] == b + [y]
    ensures a == b && x == y
  {
    assert |a| == |b| && (a + [x])[|a|] == (b + [y])[|b|];
    assert a == (a + [x])[..|a|] && b == (b + [y])[..|b|];
  }

  lemma HasFragments(ms: seq<Raw>, part: Part)
    requires (forall m :: m in ms ==> Proper(m)) && (part.Begun? ==> Proper(part.raw))
    ensures AllFragments(ms) + Open(part) == [] ==> ms == [] && part.Nothing?
  {
    if part.Begun? || ms != [] {
      SplitLast(ms, part);
    }
  }

  lemma CarriesPrefix(fs: seq<Frame>, f: Frame, ms: seq<Raw>, part: Part)
    requires Carries(fs + [f], ms, part)
    ensures if Control(f) then Carries(fs, ms, part) && f.fin && f.op != CLOSE
            else (part.Nothing? ==> ms != []) && var r := LastOf(ms, part);
                 && Proper(r) && Carries(fs, BeforeLast(ms, part), Shorter(r))
                 && f == Fragment(r, part.Nothing?, |r.chunks| - 1)
  {
    assert (fs + [f])[..|fs|] == fs && f in fs + [f];
    assert forall g :: g in fs ==> g in fs + [f];
    if !Control(f) {
      assert AllFragments(ms) + Open(part) != [];
      var r := LastOf(ms, part);
      SplitLast(ms, part);
      LastFragment(r, part.Nothing?);
      SameLast(WithoutControl(fs), f, AllFragments(BeforeLast(ms, part)) + Open(Shorter(r)), Fragment(r, part.Nothing?, |r.chunks| - 1));
    }
  }

  /** And the other way: frames that carry messages which all decompress keep the loop running,
      and it records those messages. */
  lemma {:induction false} CarriedMeansRunning(inflate: Inflate, c: Context, fs: seq<Frame>, ms: seq<Raw>, part: Part)
    requires AllReadable(fs) && Carries(fs, ms, part) && AllSound(inflate, c, ms)
    ensures Reached(inflate, c, RunLoop(inflate, c, fs), ms, part)
    decreases |fs|
  {
    hide AllFragments, Fragments, WithoutControl;
    if fs == [] {
      NoFrames(ms, part);
    } else {
      var n := |fs| - 1;
      var f := fs[n];
      assert fs == fs[..n] + [f] && Readable(f);
      CarriesPrefix(fs[..n], f, ms, part);
      if Control(f) {
        CarriedMeansRunning(inflate, c, fs[..n], ms, part);
      } else {
        var r, before := LastOf(ms, part), BeforeLast(ms, part);
        LastFragment(r, part.Nothing?);
        if part.Nothing? {
          assert ms == before + [r];
          SoundPrefix(inflate, c, before, r);
          SoundSnoc(inflate, c, before, r);
        }
        CarriedMeansRunning(inflate, c, fs[..n], before, Shorter(r));
        FeedReaches(inflate, c, RunLoop(inflate, c, fs[..n]), before, Shorter(r), f);
      }
    }
  }

  lemma SoundPrefix(inflate: Inflate, c: Context, ms: seq<Raw>, m: Raw)
    requires AllSound(inflate, c, ms + [m])
    ensures AllSound(inflate, c, ms)
  {
    forall k | 0 <= k < |ms| ensures Sound(inflate, c, ms[..k], ms[k]) {
      assert Sound(inflate, c, (ms + [m])[..k], (ms + [m])[k]) && (ms + [m])[..k] == ms[..k];
    }
  }

  lemma NoFrames(ms: seq<Raw>, part: Part)
    requires Carries([], ms, part)
    ensures ms == [] && part == Nothing
  {
    HasFragments(ms, part);
  }

  /** What a frame does wrong after these messages, inside this one. */
  function Offence(inflate: Inflate, c: Context, ms: seq<Raw>, part: Part, f: Frame): Ending {
    if Control(f) then if !f.fin then FragmentedControl else if f.op == CLOSE then Closed else Running
    else if part.Nothing? && f.op == CONTINUATION then UnexpectedContinuation
    else if part.Begun? && f.op != CONTINUATION then UnexpectedData
    else if f.fin && !Sound(inflate, c, ms, Extended(part, f)) then BadStream
    else Running
  }

  /** A loop that has ended did so at the first frame that breaks section 5.4, closes, or ends a
      message that does not decompress; it recorded exactly the messages before it. */
  lemma {:induction false} StopsAtTheOffence(inflate: Inflate, c: Context, fs: seq<Frame>)
    returns (n: nat, ms: seq<Raw>, part: Part)
    requires AllReadable(fs) && !RunLoop(inflate, c, fs).ending.Running?
    ensures n < |fs| && Carries(fs[..n], ms, part) && AllSound(inflate, c, ms)
    ensures RunLoop(inflate, c, fs).messages == AllSaid(inflate, c, ms)
    ensures RunLoop(inflate, c, fs).ending == Offence(inflate, c, ms, part, fs[n])
    decreases |fs|
  {
    n := |fs| - 1;
    var f := fs[n];
    var s := RunLoop(inflate, c, fs[..n]);
    if s.ending.Running? {
      ms, part := RunningMeansCarried(inflate, c, fs[..n]);
      assert Readable(f);
      if Continues(part, f) {
        FeedReaches(inflate, c, s, ms, part, f);
      }
    } else {
      var k;
      k, ms, part := StopsAtTheOffence(inflate, c, fs[..n]);
      assert fs[..n][..k] == fs[..k];
      n := k;
    }
  }

  /** The loop is running exactly when its frames carry messages that all decompress. */
  lemma RunningExactly(inflate: Inflate, c: Context, fs: seq<Frame>)
    requires AllReadable(fs)
    ensures RunLoop(inflate, c, fs).ending.Running? <==>
            exists ms, part :: Carries(fs, ms, part) && AllSound(inflate, c, ms)
  {
    if RunLoop(inflate, c, fs).ending.Running? {
      var ms, part := RunningMeansCarried(inflate, c, fs);
    }
    if ms, part :| Carries(fs, ms, part) && AllSound(inflate, c, ms) {
      CarriedMeansRunning(inflate, c, fs, ms, part);
    }
  }
}
