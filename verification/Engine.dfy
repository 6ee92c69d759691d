// The worker pool of cmd/run/engine/engine.go, with its safe mode.
//
// Notifications are numbered in the order in which the dispatcher puts them on the work
// channel. Both channels have the capacity of the pool.
module Engine {
  import opened Tally
  import opened Schedules

  // On the work channel: a notification, or the nil that tells a worker to stop.
  datatype Item = Note(id: nat) | Nil

  // A worker's place in its loop, in its deferred calls, or in drainSafeMode. The number is
  // its pending notification.
  datatype Worker =
    | Taking
    | Got(id: nat)           // pending is set; about to look at inPanic
    | InHandler(id: nat)
    | Panicking(id: nat)     // the handler panicked; about to push pending to the failed channel
    | Bailing(id: nat)       // saw inPanic; about to push pending
    | Recovered              // panicGuard has recovered; about to set inPanic
    | Guarding               // about to start the goroutine that drains the failed channel
    | Draining
    | Skipping(id: nat)      // drainSafeMode holds a notification of the work channel
    | Leaving                // about to call Done on the wait group
    | Gone

  // A goroutine that drains the failed channel.
  datatype Drainer = Resting | Holding(id: nat)

  // Start: receiving and dispatching, sending the nils, waiting for the workers, returned.
  datatype Starter = Dispatching | Stopping(nils: nat) | Awaiting | Returned

  datatype State = State(work: seq<Item>, failed: seq<nat>, workers: seq<Worker>, drainers: seq<Drainer>,
                         starter: Starter, sent: nat, handled: seq<nat>, skipped: seq<nat>,
                         inPanic: bool, panicked: bool)

  datatype Move =
    | Dispatch
    | Stop              // no process is left, or the listener is closed
    | SendNil
    | Return            // wg.Wait returns
    | Go(worker: nat, panics: bool)
    | Drain(drainer: nat)

  function Init(cpus: nat): State {
    State([], [], seq(cpus, _ => Taking), [], Dispatching, 0, [], [], false, false)
  }

  function Put(s: State, w: nat, worker: Worker): State
    requires w < |s.workers|
  {
    s.(workers := s.workers[w := worker])
  }

  /** panics says whether a handler that is running panics or returns. */
  function StepWorker(s: State, w: nat, panics: bool): State
    requires w < |s.workers|
  {
    match s.workers[w]
    case Taking =>
      if s.work == [] then s
      else Put(s, w, if s.work[0].Nil? then Leaving else Got(s.work[0].id)).(work := s.work[1..])
    case Got(id) => Put(s, w, if s.inPanic then Bailing(id) else InHandler(id))
    case InHandler(id) =>
      if panics then Put(s, w, Panicking(id)).(panicked := true)
      else Put(s, w, Taking).(handled := s.handled + [id])
    case Panicking(id) =>
      if |s.failed| < |s.workers| then Put(s, w, Recovered).(failed := s.failed + [id]) else s
    case Bailing(id) =>
      if |s.failed| < |s.workers| then Put(s, w, Leaving).(failed := s.failed + [id]) else s
    case Recovered => Put(s, w, Guarding).(inPanic := true)
    case Guarding => Put(s, w, Draining).(drainers := s.drainers + [Resting])
    case Draining =>
      if s.work == [] then s
      else Put(s, w, if s.work[0].Nil? then Draining else Skipping(s.work[0].id)).(work := s.work[1..])
    case Skipping(id) => Put(s, w, Draining).(skipped := s.skipped + [id])
    case Leaving => Put(s, w, Gone)
    case Gone => s
  }

  function StepDrainer(s: State, d: nat): State
    requires d < |s.drainers|
  {
    match s.drainers[d]
    case Resting =>
      if s.failed == [] then s
      else s.(drainers := s.drainers[d := Holding(s.failed[0])], failed := s.failed[1..])
    case Holding(id) => s.(drainers := s.drainers[d := Resting], skipped := s.skipped + [id])
  }

  function Apply(s: State, m: Move): State {
    match m
    case Dispatch =>
      if s.starter.Dispatching? && |s.work| < |s.workers|
      then s.(work := s.work + [Note(s.sent)], sent := s.sent + 1) else s
    case Stop => if s.starter.Dispatching? then s.(starter := Stopping(0)) else s
    case SendNil =>
      if !s.starter.Stopping? then s
      else if s.starter.nils == |s.workers| then s.(starter := Awaiting)
      else if |s.work| < |s.workers| then s.(work := s.work + [Nil], starter := Stopping(s.starter.nils + 1))
      else s
    case Return => if s.starter.Awaiting? && (forall w :: 0 <= w < |s.workers| ==> s.workers[w].Gone?) then s.(starter := Returned) else s
    case Go(w, panics) => if w < |s.workers| then StepWorker(s, w, panics) else s
    case Drain(d) => if d < |s.drainers| then StepDrainer(s, d) else s
  }

  // ---- where notification i is ----

  function IsId(i: nat): nat -> int { id => if id == i then 1 else 0 }
  function IsNote(i: nat): Item -> int { item => if item == Note(i) then 1 else 0 }
  function IsPending(i: nat): Worker -> int {
    w => if w == Got(i) || w == InHandler(i) || w == Panicking(i) || w == Bailing(i) || w == Skipping(i) then 1 else 0
  }

  function IsHeld(i: nat): Drainer -> int { d => if d == Holding(i) then 1 else 0 }

  /** In how many places notification i is: the work channel, a worker's pending slot, the
      failed channel, a drainer's hands, handled, skipped. */
  function Places(s: State, i: nat): int {
    Sum(IsNote(i), s.work) + Sum(IsPending(i), s.workers) + Sum(IsId(i), s.failed) + Sum(IsHeld(i), s.drainers)
    + Sum(IsId(i), s.handled) + Sum(IsId(i), s.skipped)
  }

  ghost predicate InOnePlace(s: State, i: nat) {
    Places(s, i) == (if i < s.sent then 1 else 0)
  }

  lemma TakeKeepsPlaces(s: State, w: nat, panics: bool, i: nat)
    requires w < |s.workers| && (s.workers[w].Taking? || s.workers[w].Draining?)
    ensures Places(StepWorker(s, w, panics), i) == Places(s, i)
  {
    hide Sum;
    SumUpdate(IsPending(i), s.workers, w, StepWorker(s, w, panics).workers[w]);
    if |s.work| > 0 { SumFirst(IsNote(i), s.work); }
  }

  lemma HandleKeepsPlaces(s: State, w: nat, panics: bool, i: nat)
    requires w < |s.workers| && (s.workers[w].Got? || s.workers[w].InHandler?)
    ensures Places(StepWorker(s, w, panics), i) == Places(s, i)
  {
    hide Sum;
    SumUpdate(IsPending(i), s.workers, w, StepWorker(s, w, panics).workers[w]);
    if s.workers[w].InHandler? { SumAppend(IsId(i), s.handled, s.workers[w].id); }
  }

  lemma PushKeepsPlaces(s: State, w: nat, panics: bool, i: nat)
    requires w < |s.workers| && (s.workers[w].Panicking? || s.workers[w].Bailing?)
    ensures Places(StepWorker(s, w, panics), i) == Places(s, i)
  {
    hide Sum;
    SumUpdate(IsPending(i), s.workers, w, StepWorker(s, w, panics).workers[w]);
    SumAppend(IsId(i), s.failed, s.workers[w].id);
  }

  lemma GuardKeepsPlaces(s: State, w: nat, panics: bool, i: nat)
    requires w < |s.workers| && (s.workers[w].Recovered? || s.workers[w].Guarding?)
    ensures Places(StepWorker(s, w, panics), i) == Places(s, i)
  {
    SumUpdate(IsPending(i), s.workers, w, StepWorker(s, w, panics).workers[w]);
    SumAppend(IsHeld(i), s.drainers, Resting);
  }

  lemma SkipKeepsPlaces(s: State, w: nat, panics: bool, i: nat)
    requires w < |s.workers| && (s.workers[w].Skipping? || s.workers[w].Leaving? || s.workers[w].Gone?)
    ensures Places(StepWorker(s, w, panics), i) == Places(s, i)
  {
    SumUpdate(IsPending(i), s.workers, w, StepWorker(s, w, panics).workers[w]);
    if s.workers[w].Skipping? { SumAppend(IsId(i), s.skipped, s.workers[w].id); }
  }

  lemma WorkerKeepsPlaces(s: State, w: nat, panics: bool, i: nat)
    requires w < |s.workers|
    ensures Places(StepWorker(s, w, panics), i) == Places(s, i)
  {
    match s.workers[w]
    case Taking => TakeKeepsPlaces(s, w, panics, i);
    case Draining => TakeKeepsPlaces(s, w, panics, i);
    case Got(_) => HandleKeepsPlaces(s, w, panics, i);
    case InHandler(_) => HandleKeepsPlaces(s, w, panics, i);
    case Panicking(_) => PushKeepsPlaces(s, w, panics, i);
    case Bailing(_) => PushKeepsPlaces(s, w, panics, i);
    case Recovered => GuardKeepsPlaces(s, w, panics, i);
    case Guarding => GuardKeepsPlaces(s, w, panics, i);
    case _ => SkipKeepsPlaces(s, w, panics, i);
  }

  lemma DrainerKeepsPlaces(s: State, d: nat, i: nat)
    requires d < |s.drainers|
    ensures Places(StepDrainer(s, d), i) == Places(s, i)
  {
    var s' := StepDrainer(s, d);
    SumUpdate(IsHeld(i), s.drainers, d, s'.drainers[d]);
    match s.drainers[d]
    case Resting => if |s.failed| > 0 { SumFirst(IsId(i), s.failed); }
    case Holding(id) => SumAppend(IsId(i), s.skipped, id);
  }

  lemma SendAddsAPlace(s: State, s': State, item: Item, i: nat)
    requires s'.work == s.work + [item] && s'.workers == s.workers && s'.failed == s.failed
    requires s'.drainers == s.drainers && s'.handled == s.handled && s'.skipped == s.skipped
    ensures Places(s', i) == Places(s, i) + (if item == Note(i) then 1 else 0)
  {
    SumAppend(IsNote(i), s.work, item);
  }

  lemma SenderKeepsPlaces(s: State, m: Move, i: nat)
    requires InOnePlace(s, i) && (m.Dispatch? || m.SendNil?)
    ensures InOnePlace(Apply(s, m), i)
  {
    if |s.work| < |s.workers| {
      if m.Dispatch? && s.starter.Dispatching? {
        SendAddsAPlace(s, Apply(s, m), Note(s.sent), i);
      } else if m.SendNil? && s.starter.Stopping? && s.starter.nils != |s.workers| {
        SendAddsAPlace(s, Apply(s, m), Nil, i);
      }
    }
  }

  lemma StepKeepsPlaces(s: State, m: Move, i: nat)
    requires InOnePlace(s, i)
    ensures InOnePlace(Apply(s, m), i)
  {
    match m
    case Go(w, panics) =>
      if w < |s.workers| {
        WorkerKeepsPlaces(s, w, panics, i);
        SentStays(s, w, panics);
      }
    case Drain(d) => if d < |s.drainers| { DrainerKeepsPlaces(s, d, i); }
    case Dispatch => SenderKeepsPlaces(s, m, i);
    case SendNil => SenderKeepsPlaces(s, m, i);
    case _ =>
  }

  lemma SentStays(s: State, w: nat, panics: bool)
    requires w < |s.workers|
    ensures StepWorker(s, w, panics).sent == s.sent
  {
  }

  // ---- the pool ----

  /** Still in the loop, or with its one push to the failed channel ahead. */
  function Unpushed(w: Worker): int {
    if w.Taking? || w.Got? || w.InHandler? || w.Panicking? || w.Bailing? then 1 else 0
  }

  /** Took a nil, or is otherwise past its loop without having panicked. */
  function Out(w: Worker): int { if w.Leaving? || w.Gone? then 1 else 0 }
  /** Panicked, and will drain for ever. */
  function Stuck(w: Worker): int {
    if w.Panicking? || w.Recovered? || w.Guarding? || w.Draining? || w.Skipping? then 1 else 0
  }

  function IsNil(item: Item): int { if item.Nil? then 1 else 0 }

  function Nils(s: State): nat {
    match s.starter
    case Dispatching => 0
    case Stopping(k) => k
    case _ => |s.workers|
  }

  ghost predicate Quiet(s: State) {
    && !s.inPanic && s.failed == [] && s.drainers == [] && s.skipped == []
    && (forall w :: 0 <= w < |s.workers| ==> !s.workers[w].Bailing? && Stuck(s.workers[w]) == 0)
    && Sum(IsNil, s.work) + Sum(Out, s.workers) == Nils(s)
    && (Sum(Out, s.workers) > 0 ==> forall i :: 0 <= i < |s.work| ==> s.work[i].Nil?)
  }

  ghost predicate Inv(s: State) {
    && |s.failed| + Sum(Unpushed, s.workers) <= |s.workers|
    && (forall i, j :: 0 <= i < j < |s.work| && s.work[i].Nil? ==> s.work[j].Nil?)
    && (s.starter.Dispatching? ==> forall i :: 0 <= i < |s.work| ==> s.work[i].Note?)
    && (if s.panicked then Sum(Stuck, s.workers) > 0 else Quiet(s))
    && (s.starter.Stopping? ==> s.starter.nils <= |s.workers|)
    && (s.starter.Returned? ==> forall w :: 0 <= w < |s.workers| ==> s.workers[w].Gone?)
  }

  /** How one worker's step moves the three totals. */
  lemma Recount(s: State, w: nat, worker: Worker)
    requires w < |s.workers|
    ensures Sum(Unpushed, s.workers[w := worker]) == Sum(Unpushed, s.workers) - Unpushed(s.workers[w]) + Unpushed(worker)
    ensures Sum(Out, s.workers[w := worker]) == Sum(Out, s.workers) - Out(s.workers[w]) + Out(worker)
    ensures Sum(Stuck, s.workers[w := worker]) == Sum(Stuck, s.workers) - Stuck(s.workers[w]) + Stuck(worker)
    ensures Stuck(worker) <= Sum(Stuck, s.workers[w := worker]) && Sum(Out, s.workers) >= Out(s.workers[w])
    ensures Unpushed(s.workers[w]) <= Sum(Unpushed, s.workers)
  {
    SumUpdate(Unpushed, s.workers, w, worker);
    SumUpdate(Out, s.workers, w, worker);
    SumUpdate(Stuck, s.workers, w, worker);
    SumAtLeast(Stuck, s.workers[w := worker], w);
    SumAtLeast(Out, s.workers, w);
    SumAtLeast(Unpushed, s.workers, w);
  }

  lemma TakeKeeps(s: State, w: nat, panics: bool)
    requires Inv(s) && w < |s.workers| && s.workers[w].Taking?
    ensures Inv(StepWorker(s, w, panics))
  {
    hide Sum;
    Recount(s, w, StepWorker(s, w, panics).workers[w]);
    if |s.work| > 0 { SumFirst(IsNil, s.work); }
  }

  lemma DrainKeeps(s: State, w: nat, panics: bool)
    requires Inv(s) && w < |s.workers| && s.workers[w].Draining?
    ensures Inv(StepWorker(s, w, panics))
  {
    Recount(s, w, StepWorker(s, w, panics).workers[w]);
  }

  lemma HandleKeeps(s: State, w: nat, panics: bool)
    requires Inv(s) && w < |s.workers| && (s.workers[w].Got? || s.workers[w].InHandler?)
    ensures Inv(StepWorker(s, w, panics))
  {
    hide Sum;
    Recount(s, w, StepWorker(s, w, panics).workers[w]);
  }

  lemma PushKeeps(s: State, w: nat, panics: bool)
    requires Inv(s) && w < |s.workers| && (s.workers[w].Panicking? || s.workers[w].Bailing?)
    ensures Inv(StepWorker(s, w, panics))
  {
    Recount(s, w, StepWorker(s, w, panics).workers[w]);
  }

  lemma GuardKeeps(s: State, w: nat, panics: bool)
    requires Inv(s) && w < |s.workers| && (s.workers[w].Recovered? || s.workers[w].Guarding?)
    ensures Inv(StepWorker(s, w, panics))
  {
    Recount(s, w, StepWorker(s, w, panics).workers[w]);
  }

  lemma SkipKeeps(s: State, w: nat, panics: bool)
    requires Inv(s) && w < |s.workers| && (s.workers[w].Skipping? || s.workers[w].Leaving? || s.workers[w].Gone?)
    ensures Inv(StepWorker(s, w, panics))
  {
    hide Sum;
    Recount(s, w, StepWorker(s, w, panics).workers[w]);
  }

  lemma WorkerKeeps(s: State, w: nat, panics: bool)
    requires Inv(s) && w < |s.workers|
    ensures Inv(StepWorker(s, w, panics))
  {
    match s.workers[w]
    case Taking => TakeKeeps(s, w, panics);
    case Draining => DrainKeeps(s, w, panics);
    case Got(_) => HandleKeeps(s, w, panics);
    case InHandler(_) => HandleKeeps(s, w, panics);
    case Panicking(_) => PushKeeps(s, w, panics);
    case Bailing(_) => PushKeeps(s, w, panics);
    case Recovered => GuardKeeps(s, w, panics);
    case Guarding => GuardKeeps(s, w, panics);
    case _ => SkipKeeps(s, w, panics);
  }

  lemma DispatchKeeps(s: State)
    requires Inv(s)
    ensures Inv(Apply(s, Dispatch))
  {
    hide Sum;
    SumAppend(IsNil, s.work, Note(s.sent));
    if s.starter.Dispatching? && !s.panicked {
      SumNonNegative(Out, s.workers);
      SumNonNegative(IsNil, s.work);
    }
  }

  lemma SendNilKeeps(s: State)
    requires Inv(s)
    ensures Inv(Apply(s, SendNil))
  {
    hide Sum;
    SumAppend(IsNil, s.work, Nil);
  }

  lemma WaitKeeps(s: State, m: Move)
    requires Inv(s) && (m.Stop? || m.Return?)
    ensures Inv(Apply(s, m))
  {
  }

  lemma StepKeepsInv(s: State, m: Move)
    requires Inv(s)
    ensures Inv(Apply(s, m))
  {
    match m
    case Go(w, panics) => if w < |s.workers| { WorkerKeeps(s, w, panics); }
    case Drain(d) =>
    case Dispatch => DispatchKeeps(s);
    case SendNil => SendNilKeeps(s);
    case _ => WaitKeeps(s, m);
  }

  lemma InitInv(cpus: nat)
    ensures Inv(Init(cpus)) && forall i: nat :: InOnePlace(Init(cpus), i)
  {
    var s := Init(cpus);
    SumBounds(Unpushed, s.workers, 1);
    SumOfZeros(Out, s.workers);
    forall i: nat ensures InOnePlace(s, i) {
      SumOfZeros(IsPending(i), s.workers);
    }
  }

  // ---- over every run ----

  ghost predicate Reachable(s: State) {
    exists ms: seq<Move> :: s == Run(Apply, Init(|s.workers|), ms)
  }

  lemma ReachableInv(s: State)
    requires Reachable(s)
    ensures Inv(s)
  {
    var ms: seq<Move> :| s == Run(Apply, Init(|s.workers|), ms);
    InitInv(|s.workers|);
    forall s, m | Inv(s) ensures Inv(Apply(s, m)) {
      StepKeepsInv(s, m);
    }
    RunKeeps(Apply, Inv, Init(|s.workers|), ms);
  }

  /** Every notification dispatched is in exactly one place, and none other is anywhere. */
  lemma NotificationsAreConserved(s: State, i: nat)
    requires Reachable(s)
    ensures Places(s, i) == (if i < s.sent then 1 else 0)
  {
    var ms: seq<Move> :| s == Run(Apply, Init(|s.workers|), ms);
    InitInv(|s.workers|);
    forall s, m | InOnePlace(s, i) ensures InOnePlace(Apply(s, m), i) {
      StepKeepsPlaces(s, m, i);
    }
    RunKeeps(Apply, s => InOnePlace(s, i), Init(|s.workers|), ms);
  }

  /** A push to the failed channel always finds room. */
  lemma PushNeverBlocks(s: State, w: nat)
    requires Reachable(s) && w < |s.workers| && (s.workers[w].Panicking? || s.workers[w].Bailing?)
    ensures |s.failed| < |s.workers|
    ensures forall panics :: Apply(s, Go(w, panics)).failed == s.failed + [s.workers[w].id]
  {
    ReachableInv(s);
    SumAtLeast(Unpushed, s.workers, w);
  }

  /** A worker pushes at most once: it never goes back to its loop. */
  lemma PushesAtMostOnce(s: State, m: Move, w: nat)
    requires w < |s.workers| && Unpushed(s.workers[w]) == 0
    ensures w < |Apply(s, m).workers| && Unpushed(Apply(s, m).workers[w]) == 0
  {
    if m.Go? && m.worker < |s.workers| {
      OnlyOneMoves(s, m.worker, m.panics, w);
    }
  }

  lemma OnlyOneMoves(s: State, w: nat, panics: bool, v: nat)
    requires w < |s.workers| && v < |s.workers| && Unpushed(s.workers[v]) == 0
    ensures v < |StepWorker(s, w, panics).workers| && Unpushed(StepWorker(s, w, panics).workers[v]) == 0
  {
    if v == w {
      NeverBack(s, w, panics);
    } else if Unpushed(s.workers[w]) == 1 {
      LoopTouchesOne(s, w, panics, v);
    } else {
      AfterTouchesOne(s, w, panics, v);
    }
  }

  lemma LoopTouchesOne(s: State, w: nat, panics: bool, v: nat)
    requires w < |s.workers| && v < |s.workers| && v != w && Unpushed(s.workers[w]) == 1
    ensures v < |StepWorker(s, w, panics).workers| && StepWorker(s, w, panics).workers[v] == s.workers[v]
  {
  }

  lemma AfterTouchesOne(s: State, w: nat, panics: bool, v: nat)
    requires w < |s.workers| && v < |s.workers| && v != w && Unpushed(s.workers[w]) == 0
    ensures v < |StepWorker(s, w, panics).workers| && StepWorker(s, w, panics).workers[v] == s.workers[v]
  {
  }

  lemma NeverBack(s: State, w: nat, panics: bool)
    requires w < |s.workers| && Unpushed(s.workers[w]) == 0
    ensures w < |StepWorker(s, w, panics).workers| && Unpushed(StepWorker(s, w, panics).workers[w]) == 0
  {
  }

  /** If Start returns, no handler ever panicked and every notification was handled. */
  lemma StartReturnsWithAllHandled(s: State, i: nat)
    requires Reachable(s) && |s.workers| > 0 && s.starter.Returned?
    ensures !s.panicked && s.skipped == []
    ensures i < s.sent ==> i in s.handled
  {
    ReachableInv(s);
    NotificationsAreConserved(s, i);
    SumOfZeros(Stuck, s.workers);
    SumOfZeros(IsPending(i), s.workers);
    AllOut(s.workers);
    AllNil(s.work);
    if i < s.sent {
      SumOfZeros(IsNote(i), s.work);
      var k := SumWitness(IsId(i), s.handled);
      assert s.handled[k] == i;
    }
  }

  lemma {:induction false} AllOut(ws: seq<Worker>)
    requires forall w :: 0 <= w < |ws| ==> ws[w].Gone?
    ensures Sum(Out, ws) == |ws|
  {
    if |ws| > 0 {
      AllOut(ws[..|ws| - 1]);
    }
  }

  lemma {:induction false} AllNil(items: seq<Item>)
    ensures (forall i :: 0 <= i < |items| ==> items[i].Nil?) ==> Sum(IsNil, items) == |items|
  {
    if |items| > 0 {
      AllNil(items[..|items| - 1]);
    }
  }

  /** After a panic some worker drains for ever, so Start never returns. */
  lemma PanicKeepsStart(s: State)
    requires Reachable(s) && s.panicked
    ensures !s.starter.Returned?
    ensures exists w :: 0 <= w < |s.workers| && Stuck(s.workers[w]) == 1
  {
    ReachableInv(s);
    var w := SumWitness(Stuck, s.workers);
    assert Stuck(s.workers[w]) == 1;
  }
}
