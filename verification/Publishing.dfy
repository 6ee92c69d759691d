// The publisher's queue, writer loop and flush: tracer/publisher.go.
//
// A message is the number of the queueWrite call that carries it. The counter queued is the
// wait group's; goroutines interleave between its updates and those of the channel.
module Publishing {
  import opened Options
  import opened Tally
  import opened Schedules

  const CAPACITY := 4096

  // queueWrite: before queued.Add, after it, refused by a full channel, and its two ends.
  datatype Writer = Called | Added | Full | Accepted | Rejected

  // Loop: dialling for the first time, selecting, writing a message, waiting or dialling after a
  // failed write, after a successful write, and returned, perhaps with a message in its hands.
  datatype Loop =
    | Dialing
    | Selecting
    | Writing(message: nat)
    | Redialing(message: nat)
    | Wrote
    | Stopped(lost: Option<nat>)

  // Flush: in its first wait; in its second, which began when mark messages had been accepted;
  // its goroutine's Wait has returned; the two ends.
  datatype Flush = Draining | Waiting(mark: nat) | SawZero(mark: nat) | Flushed(mark: nat) | GaveUp

  // ended: the context is over.
  datatype State = State(accepted: seq<nat>, channel: seq<nat>, written: seq<nat>, queued: int,
                         ended: bool, loop: Loop, writers: seq<Writer>, flushes: seq<Flush>)

  datatype Move =
    | CallWrite
    | Go(writer: nat)
    | Dialed             // the first connection, or another after a failed write
    | Receive
    | WriteFails         // conn.Write returned an error
    | WriteSucceeds
    | MarkDone           // queued.Done in Loop
    | EndContext
    | Stop               // Loop sees that the context is over, in its select, in a wait or in a dial
    | CallFlush
    | SecondWait(flush: nat)
    | ObserveZero(flush: nat)
    | FlushTrue(flush: nat)
    | FlushFalse(flush: nat)

  function Init(): State {
    State([], [], [], 0, false, Dialing, [], [])
  }

  function StepWriter(s: State, w: nat): State
    requires w < |s.writers|
  {
    match s.writers[w]
    case Called => s.(queued := s.queued + 1, writers := s.writers[w := Added])
    case Added =>
      if |s.channel| < CAPACITY then
        s.(channel := s.channel + [w], accepted := s.accepted + [w], writers := s.writers[w := Accepted])
      else s.(writers := s.writers[w := Full])
    case Full => s.(queued := s.queued - 1, writers := s.writers[w := Rejected])
    case _ => s
  }

  function Apply(s: State, m: Move): State {
    match m
    case CallWrite => s.(writers := s.writers + [Called])
    case Go(w) => if w < |s.writers| then StepWriter(s, w) else s
    case Dialed =>
      if s.loop.Dialing? then s.(loop := Selecting)
      else if s.loop.Redialing? then s.(loop := Writing(s.loop.message))
      else s
    case Receive =>
      if s.loop.Selecting? && s.channel != [] then s.(loop := Writing(s.channel[0]), channel := s.channel[1..]) else s
    case WriteFails => if s.loop.Writing? then s.(loop := Redialing(s.loop.message)) else s
    case WriteSucceeds =>
      if s.loop.Writing? then s.(written := s.written + [s.loop.message], loop := Wrote) else s
    case MarkDone => if s.loop.Wrote? then s.(queued := s.queued - 1, loop := Selecting) else s
    case EndContext => s.(ended := true)
    case Stop =>
      if !s.ended then s
      else if s.loop.Dialing? || s.loop.Selecting? then s.(loop := Stopped(None))
      else if s.loop.Redialing? then s.(loop := Stopped(Some(s.loop.message)))
      else s
    case CallFlush => s.(flushes := s.flushes + [Draining])
    case SecondWait(f) =>
      if f < |s.flushes| && s.flushes[f].Draining? then s.(flushes := s.flushes[f := Waiting(|s.accepted|)]) else s
    case ObserveZero(f) =>
      if f < |s.flushes| && s.flushes[f].Waiting? && s.queued == 0
      then s.(flushes := s.flushes[f := SawZero(s.flushes[f].mark)]) else s
    case FlushTrue(f) =>
      if f < |s.flushes| && s.flushes[f].SawZero? then s.(flushes := s.flushes[f := Flushed(s.flushes[f].mark)]) else s
    case FlushFalse(f) =>
      if f < |s.flushes| && !s.flushes[f].Flushed? then s.(flushes := s.flushes[f := GaveUp]) else s
  }

  // ---- accounting ----

  /** A queueWrite call that counts in queued though its message is not accepted. */
  function HalfDone(w: Writer): int { if w.Added? || w.Full? then 1 else 0 }

  /** What Loop has taken from the channel and not written, lost or not. */
  function Held(s: State): seq<nat> {
    match s.loop
    case Writing(m) => [m]
    case Redialing(m) => [m]
    case Stopped(Some(m)) => [m]
    case _ => []
  }

  ghost predicate Fifo(s: State) {
    s.written + Held(s) + s.channel == s.accepted
  }

  ghost predicate Counted(s: State) {
    s.queued == |s.accepted| - |s.written| + (if s.loop.Wrote? then 1 else 0) + Sum(HalfDone, s.writers)
  }

  ghost predicate Distinct(s: State) {
    && (forall i :: 0 <= i < |s.accepted| ==> s.accepted[i] < |s.writers| && s.writers[s.accepted[i]].Accepted?)
    && (forall i, j :: 0 <= i < j < |s.accepted| ==> s.accepted[i] != s.accepted[j])
  }

  ghost predicate FlushOk(s: State, f: Flush) {
    match f
    case Waiting(mark) => mark <= |s.accepted|
    case SawZero(mark) => mark <= |s.written|
    case Flushed(mark) => mark <= |s.written|
    case _ => true
  }

  ghost predicate Inv(s: State) {
    && Fifo(s) && Counted(s) && Distinct(s) && |s.channel| <= CAPACITY && (s.loop.Stopped? ==> s.ended)
    && (forall f :: 0 <= f < |s.flushes| ==> FlushOk(s, s.flushes[f]))
  }

  lemma WriterKeeps(s: State, w: nat)
    requires Inv(s) && w < |s.writers|
    ensures Inv(StepWriter(s, w))
  {
    if s.writers[w].Added? && |s.channel| < CAPACITY { SendKeeps(s, w); } else { CountKeeps(s, w); }
  }

  lemma CountKeeps(s: State, w: nat)
    requires Inv(s) && w < |s.writers| && !(s.writers[w].Added? && |s.channel| < CAPACITY)
    ensures Inv(StepWriter(s, w))
  {
    var s' := StepWriter(s, w);
    SumUpdate(HalfDone, s.writers, w, s'.writers[w]);
    assert s'.accepted == s.accepted && s'.channel == s.channel && s'.written == s.written && s'.loop == s.loop;
    assert s'.writers == s.writers[w := s'.writers[w]] && s'.flushes == s.flushes && s'.ended == s.ended;
    assert s'.queued == s.queued - HalfDone(s.writers[w]) + HalfDone(s'.writers[w]);
    hide Sum, StepWriter, HalfDone;
  }

  lemma SendKeeps(s: State, w: nat)
    requires Inv(s) && w < |s.writers| && s.writers[w].Added? && |s.channel| < CAPACITY
    ensures Inv(StepWriter(s, w))
  {
    hide Sum;
    SumUpdate(HalfDone, s.writers, w, Accepted);
    assert s.written + Held(s) + (s.channel + [w]) == s.written + Held(s) + s.channel + [w];
  }

  lemma ReceiveKeeps(s: State)
    requires Inv(s) && s.loop.Selecting? && s.channel != []
    ensures Inv(Apply(s, Receive))
  {
    assert s.channel == [s.channel[0]] + s.channel[1..];
    assert s.written + [] + s.channel == s.written + [s.channel[0]] + s.channel[1..];
  }

  lemma WriteKeeps(s: State)
    requires Inv(s) && s.loop.Writing?
    ensures Inv(Apply(s, WriteSucceeds))
  {
    assert s.written + [s.loop.message] + s.channel == (s.written + [s.loop.message]) + [] + s.channel;
  }

  lemma StepKeepsInv(s: State, m: Move)
    requires Inv(s)
    ensures Inv(Apply(s, m))
  {
    hide Sum;
    match m
    case CallWrite => SumAppend(HalfDone, s.writers, Called);
    case Go(w) => if w < |s.writers| { WriterKeeps(s, w); }
    case Receive => if s.loop.Selecting? && s.channel != [] { ReceiveKeeps(s); }
    case WriteSucceeds => if s.loop.Writing? { WriteKeeps(s); }
    case CallFlush => FlushKeeps(s, m);
    case SecondWait(_) => FlushKeeps(s, m);
    case ObserveZero(_) => FlushKeeps(s, m);
    case FlushTrue(_) => FlushKeeps(s, m);
    case FlushFalse(_) => FlushKeeps(s, m);
    case _ =>
  }

  lemma FlushKeeps(s: State, m: Move)
    requires Inv(s) && (m.CallFlush? || m.SecondWait? || m.ObserveZero? || m.FlushTrue? || m.FlushFalse?)
    ensures Inv(Apply(s, m))
  {
    hide Sum;
    SumNonNegative(HalfDone, s.writers);
  }

  // ---- over every run ----

  ghost predicate Reachable(s: State) {
    exists ms: seq<Move> :: s == Run(Apply, Init(), ms)
  }

  lemma ReachableInv(s: State)
    requires Reachable(s)
    ensures Inv(s)
  {
    var ms: seq<Move> :| s == Run(Apply, Init(), ms);
    forall s, m | Inv(s) ensures Inv(Apply(s, m)) {
      StepKeepsInv(s, m);
    }
    RunKeeps(Apply, Inv, Init(), ms);
  }

  /** Written, then the one Loop holds or has lost, then the channel: in all, what was accepted. */
  lemma AcceptedIsConserved(s: State)
    requires Reachable(s)
    ensures s.written + Held(s) + s.channel == s.accepted && |s.channel| <= CAPACITY
    ensures forall i, j :: 0 <= i < j < |s.written| ==> s.written[i] != s.written[j]
  {
    ReachableInv(s);
    forall i, j | 0 <= i < j < |s.written| ensures s.written[i] != s.written[j] {
      assert s.written[i] == s.accepted[i] && s.written[j] == s.accepted[j];
    }
  }

  /** The counter is the accepted messages not yet marked done plus the half-done calls; it
      never goes below zero. */
  lemma QueuedIsExact(s: State)
    requires Reachable(s)
    ensures s.queued == |s.accepted| - |s.written| + (if s.loop.Wrote? then 1 else 0) + Sum(HalfDone, s.writers)
    ensures 0 <= s.queued
    ensures forall w :: 0 <= w < |s.writers| && s.writers[w].Full? ==> s.queued >= 1
    ensures s.loop.Wrote? ==> s.queued >= 1
  {
    ReachableInv(s);
    SumNonNegative(HalfDone, s.writers);
    assert |s.accepted| == |s.written| + |Held(s)| + |s.channel|;
    forall w | 0 <= w < |s.writers| && s.writers[w].Full? ensures s.queued >= 1 {
      SumAtLeast(HalfDone, s.writers, w);
    }
  }

  /** A Flush that returns true has seen every message accepted before its second wait written. */
  lemma FlushMeansWritten(s: State, f: nat)
    requires Reachable(s) && f < |s.flushes| && s.flushes[f].Flushed?
    ensures var mark := s.flushes[f].mark;
            mark <= |s.written| && mark <= |s.accepted| && s.written[..mark] == s.accepted[..mark]
  {
    ReachableInv(s);
    assert s.accepted[..|s.written|] == s.written;
  }

  /** The mark is the number of messages accepted when the second wait began, and stays. */
  lemma MarkIsTakenAtSecondWait(s: State, m: Move, f: nat)
    requires f < |s.flushes|
    ensures f < |Apply(s, m).flushes|
    ensures Apply(s, m).flushes[f].Waiting? && !s.flushes[f].Waiting? ==>
              m == SecondWait(f) && Apply(s, m).flushes[f].mark == |s.accepted|
    ensures Apply(s, m).flushes[f].Flushed? && !s.flushes[f].Flushed? ==>
              s.flushes[f] == SawZero(Apply(s, m).flushes[f].mark)
    ensures Apply(s, m).flushes[f].SawZero? && !s.flushes[f].SawZero? ==>
              s.flushes[f] == Waiting(Apply(s, m).flushes[f].mark) && s.queued == 0
  {
  }

  /** A refused message is never written. */
  lemma RejectedIsNeverWritten(s: State, w: nat)
    requires Reachable(s) && w < |s.writers| && !s.writers[w].Accepted?
    ensures w !in s.written && w !in s.channel && w !in Held(s)
  {
    ReachableInv(s);
    forall x | x in s.written || x in s.channel || x in Held(s) ensures x in s.accepted {
      assert x in s.written + Held(s) + s.channel;
    }
  }

  // ---- the message Loop loses ----

  /** Loop has it in its hands and may still write it. */
  predicate Carries(l: Loop, m: nat) {
    l == Writing(m) || l == Redialing(m)
  }

  /** An accepted message is nowhere if and only if Loop returned with it. */
  lemma LostExactly(s: State, m: nat)
    requires Reachable(s)
    ensures m in s.accepted && m !in s.written && m !in s.channel && !Carries(s.loop, m) <==> s.loop == Stopped(Some(m))
  {
    ReachableInv(s);
    var n := |s.written|;
    if s.loop == Stopped(Some(m)) {
      assert Held(s) == [m] && s.accepted[n] == m;
      forall i | 0 <= i < n ensures s.written[i] != m { assert s.accepted[i] == s.written[i]; }
      forall i | 0 <= i < |s.channel| ensures s.channel[i] != m { assert s.accepted[n + 1 + i] == s.channel[i]; }
    }
    if m in s.accepted {
      assert m in s.written || m in Held(s) || m in s.channel;
    }
  }

  /** A step loses a message if and only if Loop sees the context over while it waits or dials
      after a failed write of it. */
  lemma LosesExactly(s: State, move: Move, m: nat)
    requires s.loop != Stopped(Some(m))
    ensures Apply(s, move).loop == Stopped(Some(m)) <==> move.Stop? && s.ended && s.loop == Redialing(m)
  {
  }

  /** Loop has returned with messages unwritten; one of them is lost, the others are in the channel. */
  predicate LeftBehind(s: State) {
    s.loop.Stopped? && |s.written| < |s.accepted|
  }

  lemma LostIsLeftBehind(s: State)
    requires Reachable(s) && s.loop.Stopped? && (s.loop.lost.Some? || s.channel != [])
    ensures LeftBehind(s)
  {
    ReachableInv(s);
    assert |s.accepted| == |s.written| + |Held(s)| + |s.channel|;
  }

  /** f has not seen the counter at zero, or is not called yet. */
  predicate HasNotSeenZero(s: State, f: nat) {
    f < |s.flushes| ==> !s.flushes[f].SawZero? && !s.flushes[f].Flushed?
  }

  lemma LeftBehindKeeps(s: State, m: Move, f: nat)
    requires Inv(s) && LeftBehind(s) && HasNotSeenZero(s, f)
    ensures LeftBehind(Apply(s, m)) && HasNotSeenZero(Apply(s, m), f)
    ensures Apply(s, m).loop == s.loop && Apply(s, m).written == s.written && s.queued >= 1
  {
    hide Sum;
    SumNonNegative(HalfDone, s.writers);
    assert |s.accepted| == |s.written| + |Held(s)| + |s.channel|;
  }

  /** From then on the counter stays above zero, so whatever follows, no Flush that still has to see
      it at zero returns true; nothing more is written, and no second message is lost. */
  lemma LossIsNeverFlushed(s: State, ms: seq<Move>, f: nat)
    requires Reachable(s) && s.loop.Stopped? && (s.loop.lost.Some? || s.channel != []) && HasNotSeenZero(s, f)
    ensures var s' := Run(Apply, s, ms);
            && s'.queued >= 1 && HasNotSeenZero(s', f)
            && s'.loop == s.loop && s'.written == s.written
  {
    ReachableInv(s);
    LostIsLeftBehind(s);
    LeftBehindForever(s, ms, f);
  }

  lemma {:induction false} LeftBehindForever(s: State, ms: seq<Move>, f: nat)
    requires Inv(s) && LeftBehind(s) && HasNotSeenZero(s, f)
    ensures var s' := Run(Apply, s, ms);
            && s'.queued >= 1 && HasNotSeenZero(s', f)
            && s'.loop == s.loop && s'.written == s.written
    decreases |ms|
  {
    if ms == [] {
      LeftBehindKeeps(s, EndContext, f);
    } else {
      LeftBehindKeeps(s, ms[0], f);
      StepKeepsInv(s, ms[0]);
      LeftBehindForever(Apply(s, ms[0]), ms[1..], f);
    }
  }

  lemma LossBegins()
    ensures Run(Apply, Init(), [CallWrite, Go(0), Go(0), Dialed]) == State([0], [0], [], 1, false, Selecting, [Accepted], [])
  {
    var s0 := Init();
    var s1 := Apply(s0, CallWrite);
    assert s1.writers == [Called];
    var s2 := Apply(s1, Go(0));
    assert s2.writers == [Added];
    var s3 := Apply(s2, Go(0));
    assert s3.writers == [Accepted] && s3.channel == [0] && s3.accepted == [0];
    RunFour(Apply, s0, CallWrite, Go(0), Go(0), Dialed);
  }

  lemma LossEnds(s: State)
    requires s == State([0], [0], [], 1, false, Selecting, [Accepted], [])
    ensures Run(Apply, s, [Receive, WriteFails, EndContext, Stop]) == State([0], [], [], 1, true, Stopped(Some(0)), [Accepted], [])
  {
    var s1 := Apply(s, Receive);
    assert s1.channel == [] && s1.loop == Writing(0);
    RunFour(Apply, s, Receive, WriteFails, EndContext, Stop);
  }

  /** A run that loses a message: the context ends after its first write has failed. */
  lemma LossHappens()
    ensures exists s :: Reachable(s) && s.accepted == [0] && s.written == [] && s.channel == [] && s.loop == Stopped(Some(0))
  {
    hide Apply;
    LossBegins();
    var s := State([0], [0], [], 1, false, Selecting, [Accepted], []);
    LossEnds(s);
    RunAppend(Apply, Init(), [CallWrite, Go(0), Go(0), Dialed], [Receive, WriteFails, EndContext, Stop]);
    assert Reachable(Run(Apply, s, [Receive, WriteFails, EndContext, Stop]));
  }

  // ---- the publisher as an object ----

  class Publisher {
    var accepted: seq<nat>
    var channel: seq<nat>
    var written: seq<nat>
    var queued: int
    var ended: bool
    var loop: Loop
    var writers: seq<Writer>
    var flushes: seq<Flush>

    function View(): State
      reads this
    {
      State(accepted, channel, written, queued, ended, loop, writers, flushes)
    }

    constructor ()
      ensures View() == Init()
    {
      accepted, channel, written, queued := [], [], [], 0;
      ended, loop, writers, flushes := false, Dialing, [], [];
    }

    method Interfere(ms: seq<Move>)
      modifies this
      ensures View() == Run(Apply, old(View()), ms)
    {
      hide Apply;
      for k := 0 to |ms|
        invariant View() == Run(Apply, old(View()), ms[..k])
      {
        RunNext(Apply, old(View()), ms, k);
        var s := Apply(View(), ms[k]);
        accepted, channel, written, queued := s.accepted, s.channel, s.written, s.queued;
        ended, loop, writers, flushes := s.ended, s.loop, s.writers, s.flushes;
      }
      assert ms[..|ms|] == ms;
    }

    method Meanwhile(ghost s0: State, ghost trace: seq<Move>, ms: seq<Move>, w: nat)
      requires View() == Run(Apply, s0, trace) && Inv(View()) && w < |writers| && Foreign(ms, w)
      modifies this
      ensures View() == Run(Apply, s0, trace + ms) && Inv(View())
      ensures w < |writers| && writers[w] == old(writers)[w]
    {
      RunAppend(Apply, s0, trace, ms);
      ForeignKeeps(View(), ms, w);
      Interfere(ms);
    }

    /** queued.Add of a new call. */
    method CountUp() returns (w: nat)
      requires Inv(View())
      modifies this
      ensures View() == Run(Apply, old(View()), [CallWrite, Go(w)]) && Inv(View())
      ensures w == |old(writers)| < |writers| && writers[w].Added?
    {
      ghost var s0 := View();
      w := |writers|;
      RunTwo(Apply, s0, CallWrite, Go(w));
      StepKeepsInv(s0, CallWrite);
      StepKeepsInv(Apply(s0, CallWrite), Go(w));
      queued, writers := queued + 1, writers + [Added];
      assert (s0.writers + [Called])[w := Added] == s0.writers + [Added];
    }

    /** The select: send if the channel has room. */
    method TrySend(w: nat) returns (ok: bool)
      requires Inv(View()) && w < |writers| && writers[w].Added?
      modifies this
      ensures View() == Apply(old(View()), Go(w)) && Inv(View())
      ensures ok == (|old(channel)| < CAPACITY) && w < |writers| && writers[w] == if ok then Accepted else Full
    {
      StepKeepsInv(View(), Go(w));
      ok := |channel| < CAPACITY;
      if ok {
        channel, accepted, writers := channel + [w], accepted + [w], writers[w := Accepted];
      } else {
        writers := writers[w := Full];
      }
    }

    /** queued.Done of a refused call. */
    method CountDown(w: nat)
      requires Inv(View()) && w < |writers| && writers[w].Full?
      modifies this
      ensures View() == Apply(old(View()), Go(w)) && Inv(View())
      ensures w < |writers| && writers[w].Rejected?
    {
      StepKeepsInv(View(), Go(w));
      queued, writers := queued - 1, writers[w := Rejected];
    }

    /** queueWrite, with what the others do between counting up, sending, and counting down. */
    method QueueWrite(b1: seq<Move>, b2: seq<Move>) returns (w: nat, ok: bool, ghost trace: seq<Move>)
      requires Inv(View())
      requires Foreign(b1, |writers|) && Foreign(b2, |writers|)
      modifies this
      ensures w == |old(writers)| < |writers| && Inv(View())
      ensures View() == Run(Apply, old(View()), trace)
      ensures writers[w] == if ok then Accepted else Rejected
    {
      ghost var s0 := View();
      w := CountUp();
      trace := [CallWrite, Go(w)];
      Meanwhile(s0, trace, b1, w);
      trace := trace + b1;
      RunThen(Apply, s0, trace, Go(w));
      ok := TrySend(w);
      trace := trace + [Go(w)];
      if !ok {
        Meanwhile(s0, trace, b2, w);
        trace := trace + b2;
        RunThen(Apply, s0, trace, Go(w));
        CountDown(w);
        trace := trace + [Go(w)];
      }
    }

    /** What the others do meanwhile, none of it Loop's. */
    method Around(ghost s0: State, ghost trace: seq<Move>, ms: seq<Move>)
      requires View() == Run(Apply, s0, trace) && Inv(View()) && Elsewhere(ms)
      modifies this
      ensures View() == Run(Apply, s0, trace + ms) && Inv(View())
      ensures loop == old(loop) && written == old(written) && (old(ended) ==> ended)
    {
      RunAppend(Apply, s0, trace, ms);
      ElsewhereKeeps(View(), ms);
      Interfere(ms);
    }

    /** One message through Loop: receive it, and write it until a write succeeds or the context is
        found to be over, for as many attempts as there are. */
    method WriteOne(attempts: seq<Attempt>) returns (outcome: Outcome, ghost trace: seq<Move>)
      requires Inv(View()) && loop.Selecting? && channel != []
      requires forall k :: 0 <= k < |attempts| ==> OthersIn(attempts[k])
      modifies this
      ensures View() == Run(Apply, old(View()), trace) && Inv(View())
      ensures match outcome
              case Written => loop.Selecting? && written == old(written) + [old(channel)[0]]
              case Lost => ended && loop == Stopped(Some(old(channel)[0])) && written == old(written)
              case Trying => Carries(loop, old(channel)[0]) && written == old(written)
    {
      ghost var s0 := View();
      ghost var m := channel[0];
      hide Inv, Apply;
      trace := [Receive];
      StepKeepsInv(s0, Receive);
      RunOne(Apply, s0, Receive);
      Take();
      for k := 0 to |attempts|
        invariant View() == Run(Apply, s0, trace) && Inv(View())
        invariant loop == Writing(m) && written == s0.written
      {
        var a := attempts[k];
        Around(s0, trace, a.beforeWrite);
        trace := trace + a.beforeWrite;
        if a.succeeds {
          RunThen(Apply, s0, trace, WriteSucceeds);
          Put();
          trace := trace + [WriteSucceeds];
          Around(s0, trace, a.beforeNext);
          trace := trace + a.beforeNext;
          RunThen(Apply, s0, trace, MarkDone);
          Done();
          trace := trace + [MarkDone];
          return Written, trace;
        }
        RunThen(Apply, s0, trace, WriteFails);
        Fail();
        trace := trace + [WriteFails];
        Around(s0, trace, a.beforeNext);
        trace := trace + a.beforeNext;
        if a.dialed {
          RunThen(Apply, s0, trace, Dialed);
          Redial();
          trace := trace + [Dialed];
        } else if ended {
          RunThen(Apply, s0, trace, Stop);
          GiveUp();
          trace := trace + [Stop];
          return Lost, trace;
        } else {
          return Trying, trace;
        }
      }
      outcome := Trying;
    }

    method Take()
      requires Inv(View()) && loop.Selecting? && channel != []
      modifies this
      ensures View() == Apply(old(View()), Receive) && Inv(View())
      ensures loop == Writing(old(channel)[0]) && written == old(written)
    {
      StepKeepsInv(View(), Receive);
      loop, channel := Writing(channel[0]), channel[1..];
    }

    method Put()
      requires Inv(View()) && loop.Writing?
      modifies this
      ensures View() == Apply(old(View()), WriteSucceeds) && Inv(View())
      ensures loop.Wrote? && written == old(written) + [old(loop.message)]
    {
      StepKeepsInv(View(), WriteSucceeds);
      written, loop := written + [loop.message], Wrote;
    }

    method Done()
      requires Inv(View()) && loop.Wrote?
      modifies this
      ensures View() == Apply(old(View()), MarkDone) && Inv(View())
      ensures loop.Selecting? && written == old(written)
    {
      StepKeepsInv(View(), MarkDone);
      queued, loop := queued - 1, Selecting;
    }

    /** conn.CloseNow() */
    method Fail()
      requires Inv(View()) && loop.Writing?
      modifies this
      ensures View() == Apply(old(View()), WriteFails) && Inv(View())
      ensures loop == Redialing(old(loop.message)) && written == old(written) && ended == old(ended)
    {
      StepKeepsInv(View(), WriteFails);
      loop := Redialing(loop.message);
    }

    method Redial()
      requires Inv(View()) && loop.Redialing?
      modifies this
      ensures View() == Apply(old(View()), Dialed) && Inv(View())
      ensures loop == Writing(old(loop.message)) && written == old(written)
    {
      StepKeepsInv(View(), Dialed);
      loop := Writing(loop.message);
    }

    method GiveUp()
      requires Inv(View()) && loop.Redialing? && ended
      modifies this
      ensures View() == Apply(old(View()), Stop) && Inv(View())
      ensures ended && loop == Stopped(Some(old(loop.message))) && written == old(written)
    {
      StepKeepsInv(View(), Stop);
      loop := Stopped(Some(loop.message));
    }
  }

  // How one attempt to write goes, and what the others do around it. dialed: after a failure a
  // new connection is made; if not, the context is over or Loop is at it still.
  datatype Attempt = Attempt(beforeWrite: seq<Move>, succeeds: bool, beforeNext: seq<Move>, dialed: bool)
  datatype Outcome = Written | Lost | Trying

  predicate OthersIn(a: Attempt) { Elsewhere(a.beforeWrite) && Elsewhere(a.beforeNext) }

  /** Steps of the other goroutines, the end of the context among them. */
  predicate Elsewhere(ms: seq<Move>) {
    forall k :: 0 <= k < |ms| ==>
      !(ms[k].Dialed? || ms[k].Receive? || ms[k].WriteFails? || ms[k].WriteSucceeds? || ms[k].MarkDone? || ms[k].Stop?)
  }

  lemma {:induction false} ElsewhereKeeps(s: State, ms: seq<Move>)
    requires Inv(s) && Elsewhere(ms)
    ensures var s' := Run(Apply, s, ms);
            Inv(s') && s'.loop == s.loop && s'.written == s.written && (s.ended ==> s'.ended)
    decreases |ms|
  {
    if ms != [] {
      StepKeepsInv(s, ms[0]);
      ElsewhereKeeps(Apply(s, ms[0]), ms[1..]);
    }
  }

  predicate Foreign(ms: seq<Move>, w: nat) {
    forall k :: 0 <= k < |ms| ==> ms[k] != Go(w)
  }

  lemma {:induction false} ForeignKeeps(s: State, ms: seq<Move>, w: nat)
    requires Inv(s) && w < |s.writers| && Foreign(ms, w)
    ensures var s' := Run(Apply, s, ms); Inv(s') && w < |s'.writers| && s'.writers[w] == s.writers[w]
    decreases |ms|
  {
    if ms != [] {
      StepKeepsInv(s, ms[0]);
      ForeignKeeps(Apply(s, ms[0]), ms[1..], w);
    }
  }
}
