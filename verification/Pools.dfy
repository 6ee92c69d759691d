// A worker of the pool as it runs: the goroutine of Start in cmd/run/engine/engine.go, over
// the fields that the workers, the drainers and the dispatcher share.
module Pools {
  import opened Schedules
  import opened Engine

  // What the others do between this worker's steps in one turn of its loop, and whether the
  // handler it calls panics.
  datatype Turn = Turn(beforeTake: seq<Move>, beforeLook: seq<Move>, beforeDone: seq<Move>,
                       beforePush: seq<Move>, beforeFlag: seq<Move>, beforeGuard: seq<Move>, panics: bool)

  // Why the worker's loop is over: the channel is empty or the turns are used up, a nil, a
  // notification received in safe mode, a panic.
  datatype Outcome = Waiting | Stopped | Bailed(id: nat) | Panicked(id: nat)

  predicate Foreign(ms: seq<Move>, w: nat) {
    forall k :: 0 <= k < |ms| ==> !(ms[k].Go? && ms[k].worker == w)
  }

  predicate ForeignTurn(turn: Turn, w: nat) {
    && Foreign(turn.beforeTake, w) && Foreign(turn.beforeLook, w) && Foreign(turn.beforeDone, w)
    && Foreign(turn.beforePush, w) && Foreign(turn.beforeFlag, w) && Foreign(turn.beforeGuard, w)
  }

  /** Everything in received has been handled. */
  predicate AllHandled(received: seq<nat>, handled: seq<nat>) {
    forall k :: 0 <= k < |received| ==> received[k] in handled
  }

  lemma StepGrows(s: State, m: Move)
    ensures s.handled <= Apply(s, m).handled
    ensures s.inPanic ==> Apply(s, m).inPanic
  {
  }

  lemma {:induction false} ForeignKeeps(s: State, ms: seq<Move>, w: nat)
    requires Inv(s) && w < |s.workers| && Foreign(ms, w)
    ensures var s' := Run(Apply, s, ms);
            Inv(s') && w < |s'.workers| && s'.workers[w] == s.workers[w] && s.handled <= s'.handled && (s.inPanic ==> s'.inPanic)
    decreases |ms|
  {
    if ms != [] {
      StepKeepsInv(s, ms[0]);
      StepGrows(s, ms[0]);
      OthersStay(s, ms[0], w);
      ForeignKeeps(Apply(s, ms[0]), ms[1..], w);
    }
  }

  lemma OthersStay(s: State, m: Move, w: nat)
    requires w < |s.workers| && !(m.Go? && m.worker == w)
    ensures w < |Apply(s, m).workers| && Apply(s, m).workers[w] == s.workers[w]
  {
    if m.Go? && m.worker < |s.workers| {
      if Unpushed(s.workers[m.worker]) == 1 {
        LoopTouchesOne(s, m.worker, m.panics, w);
      } else {
        AfterTouchesOne(s, m.worker, m.panics, w);
      }
    }
  }

  class Pool {
    var work: seq<Item>
    var failed: seq<nat>
    var workers: seq<Worker>
    var drainers: seq<Drainer>
    var starter: Starter
    var sent: nat
    var handled: seq<nat>
    var skipped: seq<nat>
    var inPanic: bool
    var panicked: bool

    function View(): State
      reads this
    {
      State(work, failed, workers, drainers, starter, sent, handled, skipped, inPanic, panicked)
    }

    constructor (cpus: nat)
      ensures View() == Init(cpus)
    {
      work, failed, workers, drainers := [], [], seq(cpus, _ => Taking), [];
      starter, sent, handled, skipped, inPanic, panicked := Dispatching, 0, [], [], false, false;
    }

    method Become(s: State)
      modifies this
      ensures View() == s
    {
      work, failed, workers, drainers, starter := s.work, s.failed, s.workers, s.drainers, s.starter;
      sent, handled, skipped, inPanic, panicked := s.sent, s.handled, s.skipped, s.inPanic, s.panicked;
    }

    method Interfere(ms: seq<Move>, w: nat)
      requires Inv(View()) && w < |workers| && Foreign(ms, w)
      modifies this
      ensures View() == Run(Apply, old(View()), ms) && Inv(View())
      ensures w < |workers| && workers[w] == old(workers[w]) && old(handled) <= handled && (old(inPanic) ==> inPanic)
    {
      ForeignKeeps(View(), ms, w);
      for k := 0 to |ms|
        invariant View() == Run(Apply, old(View()), ms[..k])
      {
        RunNext(Apply, old(View()), ms, k);
        Become(Apply(View(), ms[k]));
      }
      assert ms[..|ms|] == ms;
    }

    /** The receive of the range loop. */
    method Take(w: nat) returns (item: Item)
      requires Inv(View()) && w < |workers| && workers[w].Taking? && work != []
      modifies this
      ensures View() == Apply(old(View()), Go(w, false)) && Inv(View())
      ensures item == old(work)[0] && handled == old(handled)
      ensures w < |workers| && workers[w] == if item.Nil? then Leaving else Got(item.id)
    {
      StepKeepsInv(View(), Go(w, false));
      item, work := work[0], work[1..];
      workers := workers[w := if item.Nil? then Leaving else Got(item.id)];
    }

    /** inPanic.Load. */
    method Look(w: nat) returns (safeMode: bool)
      requires Inv(View()) && w < |workers| && workers[w].Got?
      modifies this
      ensures View() == Apply(old(View()), Go(w, false)) && Inv(View())
      ensures safeMode == inPanic && handled == old(handled)
      ensures w < |workers| && workers[w] == if safeMode then Bailing(old(workers[w]).id) else InHandler(old(workers[w]).id)
    {
      StepKeepsInv(View(), Go(w, false));
      safeMode := inPanic;
      workers := workers[w := if safeMode then Bailing(workers[w].id) else InHandler(workers[w].id)];
    }

    /** The handler returns, or panics. */
    method Handle(w: nat, panics: bool)
      requires Inv(View()) && w < |workers| && workers[w].InHandler?
      modifies this
      ensures View() == Apply(old(View()), Go(w, panics)) && Inv(View()) && w < |workers|
      ensures workers[w] == if panics then Panicking(old(workers[w]).id) else Taking
      ensures handled == if panics then old(handled) else old(handled) + [old(workers[w]).id]
    {
      StepKeepsInv(View(), Go(w, panics));
      if panics {
        workers, panicked := workers[w := Panicking(workers[w].id)], true;
      } else {
        handled, workers := handled + [workers[w].id], workers[w := Taking];
      }
    }

    /** The first deferred call: pending goes to the failed channel, which has room for it. */
    method Push(w: nat)
      requires Inv(View()) && w < |workers| && (workers[w].Panicking? || workers[w].Bailing?)
      modifies this
      ensures View() == Apply(old(View()), Go(w, false)) && Inv(View()) && w < |workers|
      ensures workers[w] == if old(workers[w]).Panicking? then Recovered else Leaving
      ensures failed == old(failed) + [old(workers[w]).id] && handled == old(handled)
    {
      RoomToPush(View(), w);
      StepKeepsInv(View(), Go(w, false));
      failed, workers := failed + [workers[w].id], workers[w := if workers[w].Panicking? then Recovered else Leaving];
    }

    /** inPanic.Store. */
    method RaiseFlag(w: nat)
      requires Inv(View()) && w < |workers| && workers[w].Recovered?
      modifies this
      ensures View() == Apply(old(View()), Go(w, false)) && Inv(View()) && w < |workers|
      ensures workers[w].Guarding? && inPanic && handled == old(handled)
    {
      StepKeepsInv(View(), Go(w, false));
      inPanic, workers := true, workers[w := Guarding];
    }

    /** The go statement of panicGuard; the worker then drains the work channel itself. */
    method StartDrainer(w: nat)
      requires Inv(View()) && w < |workers| && workers[w].Guarding?
      modifies this
      ensures View() == Apply(old(View()), Go(w, false)) && Inv(View()) && w < |workers|
      ensures workers[w].Draining? && inPanic == old(inPanic) && handled == old(handled)
    {
      StepKeepsInv(View(), Go(w, false));
      drainers, workers := drainers + [Resting], workers[w := Draining];
    }

    /** panicGuard, up to the endless drain of the work channel. */
    method Guard(ghost s0: State, ghost before: seq<Move>, w: nat, turn: Turn) returns (ghost trace: seq<Move>)
      requires Inv(View()) && w < |workers| && workers[w].Recovered? && ForeignTurn(turn, w)
      requires View() == Run(Apply, s0, before)
      modifies this
      ensures View() == Run(Apply, s0, trace) && Inv(View()) && w < |workers|
      ensures workers[w].Draining? && inPanic && old(handled) <= handled
    {
      RunAppend(Apply, s0, before, turn.beforeFlag);
      Interfere(turn.beforeFlag, w);
      trace := before + turn.beforeFlag;
      RunThen(Apply, s0, trace, Go(w, false));
      RaiseFlag(w);
      trace := trace + [Go(w, false)];
      RunAppend(Apply, s0, trace, turn.beforeGuard);
      Interfere(turn.beforeGuard, w);
      trace := trace + turn.beforeGuard;
      RunThen(Apply, s0, trace, Go(w, false));
      StartDrainer(w);
      trace := trace + [Go(w, false)];
    }

    /** One turn of the loop, with its deferred calls when the turn is the last. */
    method OneTurn(ghost s0: State, ghost before: seq<Move>, w: nat, turn: Turn)
      returns (item: Item, over: Outcome, ghost trace: seq<Move>)
      requires Inv(View()) && w < |workers| && workers[w].Taking? && ForeignTurn(turn, w) && work != []
      requires View() == Run(Apply, s0, before)
      modifies this
      ensures View() == Run(Apply, s0, trace) && Inv(View()) && w < |workers| && old(handled) <= handled
      ensures item == old(work)[0] && Ended(View(), w, item, over)
    {
      RunThen(Apply, s0, before, Go(w, false));
      item := Take(w);
      trace := before + [Go(w, false)];
      if item.Nil? {
        return item, Stopped, trace;
      }
      RunAppend(Apply, s0, trace, turn.beforeLook);
      Interfere(turn.beforeLook, w);
      trace := trace + turn.beforeLook;
      RunThen(Apply, s0, trace, Go(w, false));
      var safeMode := Look(w);
      trace := trace + [Go(w, false)];
      if safeMode {
        trace := Bail(s0, trace, w, turn);
        return item, Bailed(item.id), trace;
      }
      over, trace := RunHandler(s0, trace, w, turn);
    }

    /** The return taken in safe mode. */
    method Bail(ghost s0: State, ghost before: seq<Move>, w: nat, turn: Turn) returns (ghost trace: seq<Move>)
      requires Inv(View()) && w < |workers| && workers[w].Bailing? && ForeignTurn(turn, w) && inPanic
      requires View() == Run(Apply, s0, before)
      modifies this
      ensures View() == Run(Apply, s0, trace) && Inv(View()) && w < |workers| && old(handled) <= handled
      ensures workers[w].Leaving? && inPanic && |failed| > 0 && failed[|failed| - 1] == old(workers[w]).id
    {
      RunAppend(Apply, s0, before, turn.beforePush);
      Interfere(turn.beforePush, w);
      trace := before + turn.beforePush;
      RunThen(Apply, s0, trace, Go(w, false));
      Push(w);
      trace := trace + [Go(w, false)];
    }

    /** The handler's call, and the deferred calls if it panics. */
    method RunHandler(ghost s0: State, ghost before: seq<Move>, w: nat, turn: Turn)
      returns (over: Outcome, ghost trace: seq<Move>)
      requires Inv(View()) && w < |workers| && workers[w].InHandler? && ForeignTurn(turn, w)
      requires View() == Run(Apply, s0, before)
      modifies this
      ensures View() == Run(Apply, s0, trace) && Inv(View()) && w < |workers| && old(handled) <= handled
      ensures Ended(View(), w, Note(old(workers[w]).id), over) && (over.Waiting? || over.Panicked?)
    {
      hide Inv, Apply, Run;
      var id := workers[w].id;
      RunAppend(Apply, s0, before, turn.beforeDone);
      Interfere(turn.beforeDone, w);
      trace := before + turn.beforeDone;
      RunThen(Apply, s0, trace, Go(w, turn.panics));
      Handle(w, turn.panics);
      trace := trace + [Go(w, turn.panics)];
      if !turn.panics {
        return Waiting, trace;
      }
      RunAppend(Apply, s0, trace, turn.beforePush);
      Interfere(turn.beforePush, w);
      trace := trace + turn.beforePush;
      RunThen(Apply, s0, trace, Go(w, false));
      Push(w);
      trace := trace + [Go(w, false)];
      trace := Guard(s0, trace, w, turn);
      return Panicked(id), trace;
    }

    /** The worker's whole loop. Each notification it received is handled before it receives
        another; only the last can fail to be, in safe mode or by a panic. */
    method Work(w: nat, turns: seq<Turn>) returns (received: seq<nat>, over: Outcome, ghost trace: seq<Move>)
      requires Inv(View()) && w < |workers| && workers[w].Taking?
      requires forall k :: 0 <= k < |turns| ==> ForeignTurn(turns[k], w)
      modifies this
      ensures View() == Run(Apply, old(View()), trace) && Inv(View()) && w < |workers|
      ensures LeavesNothing(View(), w, received, over)
    {
      hide Inv, Apply;
      ghost var s0 := View();
      received, over, trace := [], Waiting, [];
      for k := 0 to |turns|
        invariant View() == Run(Apply, s0, trace) && Inv(View()) && over.Waiting?
        invariant w < |workers| && workers[w].Taking? && AllHandled(received, handled)
      {
        RunAppend(Apply, s0, trace, turns[k].beforeTake);
        Interfere(turns[k].beforeTake, w);
        trace := trace + turns[k].beforeTake;
        if work == [] {
          return;
        }
        var item;
        item, over, trace := OneTurn(s0, trace, w, turns[k]);
        if item.Note? {
          received := received + [item.id];
        }
        if !over.Waiting? {
          return;
        }
      }
    }
  }

  /** How the loop leaves the worker and the notifications it received. */
  predicate LeavesNothing(s: State, w: nat, received: seq<nat>, over: Outcome) {
    && w < |s.workers|
    && match over
       case Waiting => s.workers[w].Taking? && AllHandled(received, s.handled)
       case Stopped => s.workers[w].Leaving? && AllHandled(received, s.handled)
       case Bailed(id) => s.workers[w].Leaving? && s.inPanic && LastFailed(received, id, s.handled)
       case Panicked(id) => s.workers[w].Draining? && s.inPanic && LastFailed(received, id, s.handled)
  }

  predicate LastFailed(received: seq<nat>, id: nat, handled: seq<nat>) {
    |received| > 0 && received[|received| - 1] == id && AllHandled(received[..|received| - 1], handled)
  }

  /** How one turn leaves the worker. */
  predicate Ended(s: State, w: nat, item: Item, over: Outcome) {
    && w < |s.workers|
    && match over
       case Waiting => item.Note? && s.workers[w].Taking? && item.id in s.handled
       case Stopped => item.Nil? && s.workers[w].Leaving?
       case Bailed(id) => item == Note(id) && s.workers[w].Leaving? && s.inPanic
       case Panicked(id) => item == Note(id) && s.workers[w].Draining? && s.inPanic
  }

  lemma RoomToPush(s: State, w: nat)
    requires Inv(s) && w < |s.workers| && (s.workers[w].Panicking? || s.workers[w].Bailing?)
    ensures |s.failed| < |s.workers|
  {
    Recount(s, w, Gone);
  }
}
