// The websocket tracer as it runs: the websocket type of cmd/run/socket/proxy.go. Its two read
// loops share the byte budget and the list of messages; each has its own stream and window.
module Websockets {
  import opened Schedules
  import opened Bytes
  import opened Budgets
  import opened Frames

  predicate Foreign(ms: seq<Move>, r: nat) {
    forall k :: 0 <= k < |ms| ==> ms[k].reader != r
  }

  predicate AllForeign(bursts: seq<seq<Move>>, r: nat) {
    forall k :: 0 <= k < |bursts| ==> Foreign(bursts[k], r)
  }

  lemma {:induction false} ForeignKeeps(s: State, ms: seq<Move>, r: nat)
    requires Inv(s) && r < |s.readers| && Foreign(ms, r)
    ensures var s' := Run(Apply, s, ms);
            Inv(s') && |s'.readers| == |s.readers| && s'.readers[r] == s.readers[r] && s'.limit == s.limit
    decreases |ms|
  {
    if ms != [] {
      StepKeepsInv(s, ms[0]);
      ForeignKeeps(Apply(s, ms[0]), ms[1..], r);
    }
  }

  class Budget {
    const limit: nat
    var n: nat
    var readers: seq<Reader>

    function View(): State
      reads this
    {
      State(limit, n, readers)
    }

    constructor (limit: nat, streams: seq<seq<Byte>>)
      ensures View() == Init(limit, streams)
    {
      this.limit, n := limit, limit;
      readers := Init(limit, streams).readers;
    }

    method Interfere(ms: seq<Move>, r: nat)
      requires Inv(View()) && r < |readers| && Foreign(ms, r)
      modifies this
      ensures View() == Run(Apply, old(View()), ms) && Inv(View())
      ensures |readers| == old(|readers|) && readers[r] == old(readers[r]) && (ms == [] ==> n == old(n))
    {
      ForeignKeeps(View(), ms, r);
      for k := 0 to |ms|
        invariant View() == Run(Apply, old(View()), ms[..k])
      {
        RunNext(Apply, old(View()), ms, k);
        LimitStays(View(), ms[k]);
        var s := Apply(View(), ms[k]);
        n, readers := s.n, s.readers;
      }
      assert ms[..|ms|] == ms;
    }

    method Enter(r: nat, want: nat)
      requires Inv(View()) && r < |readers| && readers[r].pc.Idle?
      modifies this
      ensures View() == Apply(old(View()), Call(r, want)) && Inv(View())
      ensures |readers| == old(|readers|) && readers[r] == old(readers[r]).(pc := Loading(want)) && n == old(n)
    {
      StepKeepsInv(View(), Call(r, want));
      readers := readers[r := readers[r].(pc := Loading(want))];
    }

    /** w.n.Load, and the comparison with what is wanted. */
    method Load(r: nat) returns (remaining: nat, enough: bool)
      requires Inv(View()) && r < |readers| && readers[r].pc.Loading?
      modifies this
      ensures View() == Apply(old(View()), Go(r)) && Inv(View()) && remaining == n == old(n)
      ensures enough == (remaining >= old(readers[r]).pc.want) && |readers| == old(|readers|)
      ensures readers[r] == old(readers[r]).(pc := if enough then Loaded(old(readers[r]).pc.want, remaining) else Idle)
    {
      StepKeepsInv(View(), Go(r));
      remaining := n;
      enough := remaining >= readers[r].pc.want;
      readers := readers[r := readers[r].(pc := if enough then Loaded(readers[r].pc.want, remaining) else Idle)];
    }

    /** w.n.CompareAndSwap. */
    method Reserve(r: nat) returns (ok: bool)
      requires Inv(View()) && r < |readers| && readers[r].pc.Loaded?
      modifies this
      ensures View() == Apply(old(View()), Go(r)) && Inv(View()) && ok == (old(n) == old(readers[r]).pc.seen)
      ensures |readers| == old(|readers|)
      ensures readers[r] == old(readers[r]).(pc := if ok then Reading(old(readers[r]).pc.want) else Loading(old(readers[r]).pc.want))
      ensures n == if ok then old(n) - old(readers[r]).pc.want else old(n)
    {
      StepKeepsInv(View(), Go(r));
      WithinLimit(View(), r);
      assert ReaderOk(readers[r]);
      var pc := readers[r].pc;
      ok := n == pc.seen;
      if ok {
        n := (pc.seen - pc.want) % TWO_64;
      }
      readers := readers[r := readers[r].(pc := if ok then Reading(pc.want) else Loading(pc.want))];
    }

    /** io.ReadFull into p, byte by byte until p is full or the stream ends. */
    method Fill(r: nat, p: array<Byte>) returns (full: bool)
      requires Inv(View()) && r < |readers| && readers[r].pc == Reading(p.Length)
      modifies this, p
      ensures View() == Apply(old(View()), Go(r)) && Inv(View()) && |readers| == old(|readers|)
      ensures full == (old(readers[r]).taken + p.Length <= |readers[r].stream|)
      ensures readers[r].stream == old(readers[r]).stream && old(readers[r]).taken <= readers[r].taken <= |readers[r].stream|
      ensures full ==> readers[r].taken == old(readers[r]).taken + p.Length && readers[r].pc.Idle?
      ensures full ==> p[..] == readers[r].stream[old(readers[r]).taken..readers[r].taken]
      ensures !full ==> readers[r].pc == Refunding(p.Length - (readers[r].taken - old(readers[r]).taken))
                        && readers[r].taken == |readers[r].stream|
      ensures n == old(n)
    {
      StepKeepsInv(View(), Go(r));
      assert ReaderOk(readers[r]);
      var k := readers[r];
      var i := 0;
      while i < p.Length && k.taken + i < |k.stream|
        invariant 0 <= i <= p.Length && k.taken + i <= |k.stream|
        invariant p[..i] == k.stream[k.taken..k.taken + i] && readers == old(readers) && n == old(n)
      {
        p[i] := k.stream[k.taken + i];
        i := i + 1;
      }
      full := i == p.Length;
      readers := readers[r := Reader(k.stream, k.taken + i, if full then Idle else Refunding(p.Length - i))];
    }

    /** w.n.Add of what was not read. */
    method Refund(r: nat)
      requires Inv(View()) && r < |readers| && readers[r].pc.Refunding?
      modifies this
      ensures View() == Apply(old(View()), Go(r)) && Inv(View())
      ensures |readers| == old(|readers|) && readers[r] == old(readers[r]).(pc := Idle)
      ensures n == old(n) + old(readers[r]).pc.back
    {
      StepKeepsInv(View(), Go(r));
      WithinLimit(View(), r);
      n, readers := (n + readers[r].pc.back) % TWO_64, readers[r := readers[r].(pc := Idle)];
    }

    /** The loop of readFull: load, compare, reserve; again while the others change the budget in
        between. seen is what the last comparison found. */
    method Acquire(r: nat, bursts: seq<seq<Move>>, ghost s0: State, ghost before: seq<Move>)
      returns (ok: bool, seen: nat, ghost trace: seq<Move>)
      requires Inv(View()) && r < |readers| && readers[r].pc.Loading? && AllForeign(bursts, r)
      requires View() == Run(Apply, s0, before)
      modifies this
      ensures View() == Run(Apply, s0, trace) && Inv(View()) && |readers| == old(|readers|)
      ensures ok == (seen >= old(readers[r]).pc.want)
      ensures bursts == [] ==> seen == old(n) && n == if ok then old(n) - old(readers[r]).pc.want else old(n)
      ensures readers[r] == old(readers[r]).(pc := if ok then Reading(old(readers[r]).pc.want) else Idle)
    {
      trace := before;
      for k := 0 to |bursts|
        invariant View() == Run(Apply, s0, trace) && Inv(View()) && |readers| == old(|readers|)
        invariant readers[r] == old(readers[r]) && (k == 0 ==> n == old(n))
      {
        RunThen(Apply, s0, trace, Go(r));
        seen, ok := Load(r);
        trace := trace + [Go(r)];
        if !ok {
          return;
        }
        RunAppend(Apply, s0, trace, bursts[k]);
        Interfere(bursts[k], r);
        trace := trace + bursts[k];
        RunThen(Apply, s0, trace, Go(r));
        ok := Reserve(r);
        trace := trace + [Go(r)];
        if ok {
          return;
        }
      }
      RunThen(Apply, s0, trace, Go(r));
      seen, ok := Load(r);
      trace := trace + [Go(r)];
      if ok {
        RunThen(Apply, s0, trace, Go(r));
        ok := Reserve(r);
        trace := trace + [Go(r)];
      }
    }

    /** The read of what was reserved, and the refund if the stream ends first. */
    method Collect(r: nat, p: array<Byte>, around: Around, ghost s0: State, ghost before: seq<Move>)
      returns (full: bool, ghost trace: seq<Move>)
      requires Inv(View()) && r < |readers| && readers[r].pc == Reading(p.Length) && ForeignAround(around, r)
      requires View() == Run(Apply, s0, before)
      modifies this, p
      ensures View() == Run(Apply, s0, trace)
      ensures var k := old(readers[r]); var end := k.taken + p.Length;
              if full then end <= |k.stream| && At(r, k.stream, end) && p[..] == k.stream[k.taken..end]
              else |k.stream| < end && At(r, k.stream, |k.stream|)
      ensures Silent(around) ==> n == if full then old(n) else old(n) + p.Length - (|readers[r].stream| - old(readers[r]).taken)
    {
      RunAppend(Apply, s0, before, around.beforeRead);
      Interfere(around.beforeRead, r);
      trace := before + around.beforeRead;
      RunThen(Apply, s0, trace, Go(r));
      full := Fill(r, p);
      trace := trace + [Go(r)];
      if !full {
        RunAppend(Apply, s0, trace, around.beforeRefund);
        Interfere(around.beforeRefund, r);
        trace := trace + around.beforeRefund;
        RunThen(Apply, s0, trace, Go(r));
        Refund(r);
        trace := trace + [Go(r)];
      }
    }

    /** Between two calls of readFull, having taken that much of the stream. */
    ghost predicate At(r: nat, stream: seq<Byte>, taken: nat)
      reads this
    {
      Inv(View()) && r < |readers| && readers[r] == Reader(stream, taken, Idle) && taken <= |stream|
    }

    /** readFull: what it takes off the stream is what the budget it found allows. */
    method ReadFull(r: nat, p: array<Byte>, around: Around, ghost stream: seq<Byte>, ghost taken: nat)
      returns (grab: Grab, seen: nat)
      requires At(r, stream, taken) && ForeignAround(around, r)
      modifies this, p
      ensures LeadsTo(old(View()), View()) && grab == Take(stream, taken, p.Length, seen)
      ensures At(r, stream, if grab.All? then taken + p.Length else if grab.NoBudget? then taken else |stream|)
      ensures grab.All? ==> p[..] == stream[taken..taken + p.Length]
      ensures Silent(around) ==> seen == old(n) && n == Left(old(n), grab, p.Length, |stream| - taken)
    {
      ghost var s0 := View();
      RunOne(Apply, s0, Call(r, p.Length));
      Enter(r, p.Length);
      ghost var trace := [Call(r, p.Length)];
      var ok;
      ok, seen, trace := Acquire(r, around.bursts, s0, trace);
      if !ok {
        return NoBudget, seen;
      }
      ok, trace := Collect(r, p, around, s0, trace);
      return if ok then All else Ended, seen;
    }

    /** The look at the budget before the payload is allocated. */
    method Check(r: nat, before: seq<Move>, ghost stream: seq<Byte>, ghost taken: nat) returns (remaining: nat)
      requires At(r, stream, taken) && Foreign(before, r)
      modifies this
      ensures LeadsTo(old(View()), View()) && At(r, stream, taken) && remaining == n && (before == [] ==> n == old(n))
    {
      Interfere(before, r);
      remaining := n;
    }

    /** The payload, read and unmasked in place. */
    method TakePayload(r: nat, length: nat, key: seq<Byte>, around: Around, ghost stream: seq<Byte>, ghost taken: nat)
      returns (grab: Grab, seen: nat, payload: seq<Byte>)
      requires At(r, stream, taken) && ForeignAround(around, r) && (|key| == 0 || |key| == 4)
      modifies this
      ensures LeadsTo(old(View()), View()) && grab == Take(stream, taken, length, seen)
      ensures At(r, stream, if grab.All? then taken + length else if grab.NoBudget? then taken else |stream|)
      ensures grab.All? ==> payload == Masked(stream[taken..taken + length], key)
      ensures Silent(around) ==> seen == old(n) && n == Left(old(n), grab, length, |stream| - taken)
    {
      var buffer := new Byte[length];
      grab, seen := ReadFull(r, buffer, around, stream, taken);
      if grab.All? {
        Unmask(buffer, key);
      }
      payload := buffer[..];
    }

    method ReadPayload(r: nat, h0: Byte, length: nat, key: seq<Byte>, turn: Turn, b0: Limits,
                       ghost stream: seq<Byte>, ghost start: nat, ghost at: nat) returns (result: Result, b: Limits, ghost used: nat)
      requires At(r, stream, start + at) && ForeignTurn(turn, r)
      requires at >= 2 && h0 == stream[start] && (|key| == 0 || |key| == 4)
      modifies this
      ensures LeadsTo(old(View()), View()) && b == b0.(check := b.check, payload := b.payload)
      ensures Frames.ReadPayload(stream[start..], b, at, length, key) == Outcome(result, used) && At(r, stream, start + used)
      ensures SilentTurn(turn) ==> n == old(n) - (used - at)
      ensures SilentTurn(turn) ==> forall c: Limits :: c.check == c.payload == old(n) ==>
                Frames.ReadPayload(stream[start..], c, at, length, key) == Outcome(result, used)
    {
      hide Masked, Assemble, LeadsTo, Run, Apply, Inv;
      ghost var s0 := View();
      var remaining := Check(r, turn.beforeCheck, stream, start + at);
      ghost var s1 := View();
      b := b0.(check := remaining);
      if remaining < length {
        return Failed(OverLimit), b, at;
      }
      var grab, seen, payload := TakePayload(r, length, key, turn.payload, stream, start + at);
      Onwards(s0, s1, View());
      FromStart(stream, start, at, length, seen);
      b := b.(payload := seen);
      if !grab.All? {
        return Failed(if grab.NoBudget? then OverLimit else EndOfStream), b, if grab.NoBudget? then at else |stream| - start;
      }
      result, used := Assemble(h0, payload), at + length;
    }

    method ReadKey(r: nat, h0: Byte, h1: Byte, length: nat, turn: Turn, b0: Limits,
                   ghost stream: seq<Byte>, ghost start: nat, ghost at: nat) returns (result: Result, b: Limits, ghost used: nat)
      requires At(r, stream, start + at) && ForeignTurn(turn, r)
      requires at >= 2 && h0 == stream[start] && h1 == stream[start + 1]
      modifies this
      ensures LeadsTo(old(View()), View()) && b == b0.(key := b.key, check := b.check, payload := b.payload)
      ensures Frames.ReadKey(stream[start..], b, at, length) == Outcome(result, used) && At(r, stream, start + used)
      ensures SilentTurn(turn) ==> n == old(n) - (used - at)
      ensures SilentTurn(turn) ==> forall c: Limits :: c.key == old(n) && c.check == c.payload == Less(old(n), if h1 < 128 then 0 else 4) ==>
                Frames.ReadKey(stream[start..], c, at, length) == Outcome(result, used)
    {
      if h1 < 128 {
        result, b, used := ReadPayload(r, h0, length, [], turn, b0, stream, start, at);
      } else {
        result, b, used := ReadMasked(r, h0, length, turn, b0, stream, start, at);
      }
    }

    method ReadMasked(r: nat, h0: Byte, length: nat, turn: Turn, b0: Limits,
                      ghost stream: seq<Byte>, ghost start: nat, ghost at: nat) returns (result: Result, b: Limits, ghost used: nat)
      requires At(r, stream, start + at) && ForeignTurn(turn, r)
      requires at >= 2 && h0 == stream[start] && stream[start + 1] >= 128
      modifies this
      ensures LeadsTo(old(View()), View()) && b == b0.(key := b.key, check := b.check, payload := b.payload)
      ensures Frames.ReadKey(stream[start..], b, at, length) == Outcome(result, used) && At(r, stream, start + used)
      ensures SilentTurn(turn) ==> n == old(n) - (used - at)
      ensures SilentTurn(turn) ==> forall c: Limits :: c.key == old(n) && c.check == c.payload == Less(old(n), 4) ==>
                Frames.ReadKey(stream[start..], c, at, length) == Outcome(result, used)
    {
      hide Frames.ReadPayload, Masked, LeadsTo, Run, Apply, Inv;
      ghost var s0 := View();
      var mask := new Byte[4];
      var grab, seen := ReadFull(r, mask, turn.key, stream, start + at);
      ghost var s1 := View();
      FromStart(stream, start, at, 4, seen);
      b := b0.(key := seen);
      if !grab.All? {
        return Failed(if grab.NoBudget? then OverLimit else EndOfStream), b, if grab.NoBudget? then at else |stream| - start;
      }
      result, b, used := ReadPayload(r, h0, length, mask[..], turn, b, stream, start, at + 4);
      Onwards(s0, s1, View());
    }

    method ReadExtension(r: nat, h0: Byte, h1: Byte, turn: Turn, b0: Limits, ghost stream: seq<Byte>, ghost start: nat)
      returns (result: Result, b: Limits, ghost used: nat)
      requires At(r, stream, start + 2) && ForeignTurn(turn, r) && h0 == stream[start] && h1 == stream[start + 1]
      modifies this
      ensures LeadsTo(old(View()), View())
              && b == b0.(extension := b.extension, key := b.key, check := b.check, payload := b.payload)
      ensures Frames.ReadExtension(stream[start..], b) == Outcome(result, used) && At(r, stream, start + used)
      ensures SilentTurn(turn) ==> n == old(n) - (used - 2)
      ensures SilentTurn(turn) ==> forall c: Limits :: c.extension == old(n) && c.key == Less(old(n), ExtensionSize(h1))
                                                       && c.check == c.payload == Less(c.key, if h1 < 128 then 0 else 4) ==>
                Frames.ReadExtension(stream[start..], c) == Outcome(result, used)
    {
      hide Frames.ReadKey;
      var size := ExtensionSize(h1);
      if size == 0 {
        result, b, used := ReadKey(r, h0, h1, h1 % 128, turn, b0, stream, start, 2);
        return;
      }
      ghost var s0 := View();
      var ext := new Byte[size];
      var grab, seen := ReadFull(r, ext, turn.extension, stream, start + 2);
      ghost var s1 := View();
      FromStart(stream, start, 2, size, seen);
      b := b0.(extension := seen);
      if !grab.All? {
        return Failed(if grab.NoBudget? then OverLimit else EndOfStream), b, if grab.NoBudget? then 2 else |stream| - start;
      }
      result, b, used := ReadKey(r, h0, h1, Number(ext[..]), turn, b, stream, start, 2 + size);
      Onwards(s0, s1, View());
    }

    /** readFrame, with the other reader at work throughout: the frame is the one that the budget
        it found at each check allows, and it takes exactly that frame's bytes off the stream. */
    method ReadFrame(r: nat, isClient: bool, turn: Turn, ghost stream: seq<Byte>, ghost start: nat)
      returns (result: Result, b: Limits, ghost used: nat)
      requires At(r, stream, start) && ForeignTurn(turn, r)
      modifies this
      ensures LeadsTo(old(View()), View())
      ensures Frames.ReadFrame(stream[start..], isClient, b) == Outcome(result, used) && At(r, stream, start + used)
      ensures SilentTurn(turn) ==> n == old(n) - used
      ensures SilentTurn(turn) ==>
                Frames.ReadFrame(stream[start..], isClient, CountDown(stream[start..], old(n))) == Outcome(result, used)
    {
      ghost var s0 := View();
      var header := new Byte[2];
      var grab, seen := ReadFull(r, header, turn.header, stream, start);
      ghost var s1 := View();
      b := Limits(seen, 0, 0, 0, 0);
      if !grab.All? {
        return Failed(if grab.NoBudget? then OverLimit else EndOfStream), b, if grab.NoBudget? then 0 else |stream| - start;
      }
      assert header[..][0] == stream[start..][0] && header[..][1] == stream[start..][1];
      var h := HeaderCheck(header[0], header[1], isClient);
      if h.Refused? {
        return Failed(h.error), b, 2;
      }
      result, b, used := ReadExtension(r, header[0], header[1], turn, b, stream, start);
      Onwards(s0, s1, View());
    }
  }

  /** Unmasking, in place. */
  method Unmask(payload: array<Byte>, key: seq<Byte>)
    requires |key| == 0 || |key| == 4
    modifies payload
    ensures payload[..] == Masked(old(payload[..]), key)
  {
    if key == [] {
      return;
    }
    for i := 0 to payload.Length
      invariant forall j :: 0 <= j < i ==> payload[j] == XorByte(old(payload[j]), key[j % 4])
      invariant forall j :: i <= j < payload.Length ==> payload[j] == old(payload[j])
    {
      payload[i] := XorByte(payload[i], key[i % 4]);
    }
  }

  lemma Onwards(a: State, b: State, c: State)
    requires LeadsTo(a, b) && LeadsTo(b, c)
    ensures LeadsTo(a, c)
  {
    var first: seq<Move> :| b == Run(Apply, a, first);
    var second: seq<Move> :| c == Run(Apply, b, second);
    RunAppend(Apply, a, first, second);
  }

  /** The same read, counted from the start of the frame. */
  lemma FromStart(stream: seq<Byte>, start: nat, at: nat, size: nat, budget: nat)
    requires start <= |stream|
    ensures Take(stream[start..], at, size, budget) == Take(stream, start + at, size, budget)
    ensures start + at + size <= |stream| ==> stream[start..][at..at + size] == stream[start + at..start + at + size]
  {
  }

  /** What one reader leaves of the budget with a call of readFull that nobody disturbs. */
  function Left(n: nat, grab: Grab, size: nat, available: int): int {
    match grab case All => n - size case NoBudget => n case Ended => n - available
  }

  lemma LimitStays(s: State, m: Move)
    ensures Apply(s, m).limit == s.limit
  {
  }

  /** Some interleaving leads from one state to the other. */
  ghost predicate LeadsTo(s: State, s': State) {
    exists trace: seq<Move> :: s' == Run(Apply, s, trace)
  }

  // What the other reader does during one readFull.
  datatype Around = Around(bursts: seq<seq<Move>>, beforeRead: seq<Move>, beforeRefund: seq<Move>)

  /** It does nothing. */
  predicate Silent(a: Around) { a.bursts == [] && a.beforeRead == [] && a.beforeRefund == [] }

  predicate ForeignAround(a: Around, r: nat) {
    AllForeign(a.bursts, r) && Foreign(a.beforeRead, r) && Foreign(a.beforeRefund, r)
  }

  // What the other reader does during one readFrame.
  datatype Turn = Turn(header: Around, extension: Around, key: Around, beforeCheck: seq<Move>, payload: Around)

  predicate SilentTurn(t: Turn) {
    Silent(t.header) && Silent(t.extension) && Silent(t.key) && t.beforeCheck == [] && Silent(t.payload)
  }

  predicate ForeignTurn(t: Turn, r: nat) {
    && ForeignAround(t.header, r) && ForeignAround(t.extension, r) && ForeignAround(t.key, r)
    && Foreign(t.beforeCheck, r) && ForeignAround(t.payload, r)
  }
}
