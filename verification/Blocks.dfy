// Event blocks passed between inserters and flushers: tracer/manager.go.
//
// A block is known by its address, an index into an append-only heap, so a recycled block can
// become current again while somebody still holds the address from its previous life. The
// event of an Insert call is the number of the thread that makes the call.
module Blocks {
  import opened Options
  import opened Schedules
  import opened Tally

  // Where a block is. Evicted: the garbage collector took it out of the pool.
  datatype Place = Current | Pooled | Private(thread: nat) | Finalizing(thread: nat) | Evicted

  // holder: the flusher that is inside flushOnce, with the block's mutex.
  datatype Block = Block(events: seq<nat>, frozen: bool, flushed: bool, holder: Option<nat>, place: Place)

  datatype Pc =
    | InsertLoad(next: Option<nat>)
    | InsertTry(seen: nat, next: Option<nat>)
    | InsertGet(seen: nat)
    | InsertSwap(seen: nat, spare: nat)
    | FlushGet
    | FlushLoad(spare: nat)
    | FlushSwap(seen: nat, spare: nat)
    | Freeze(block: nat, again: bool)      // about to enter flushOnce, the first or second time
    | Sending(block: nat, again: bool)     // inside flushOnce, frozen, before doInsert has answered
    | Reset(block: nat)                    // put: about to reset
    | Return(block: nat)                   // put: about to give the block to the pool
    | Finished

  // How flushOnce ends: before doInsert, or with doInsert's answer.
  datatype Outcome = Early | Refused | Acked

  // What became of the event of an Insert call. safe: it was appended while its block was
  // current, or swapped out but not yet frozen. sealed: the finalizer that froze its block with
  // it inside. given, acks: how often it was given to doInsert, and acknowledged.
  datatype Spot = NotYet | InBlock(block: nat) | Dropped
  datatype Fate = Fate(spot: Spot, safe: bool, sealed: Option<nat>, given: nat, acks: nat)

  // ends: how the attempts of the thread, as a finalizer of events, have ended so far.
  datatype Thread = Thread(pc: Pc, fate: Fate, ends: seq<Outcome>)

  // A batch given to doInsert.
  datatype Batch = Batch(finalizer: nat, block: nat, events: seq<nat>, acked: bool)

  // handed: all the batches so far. token: SUBTRACE_TOKEN is set.
  datatype State = State(token: bool, blocks: seq<Block>, cur: nat, threads: seq<Thread>, handed: seq<Batch>)

  datatype Move =
    | CallInsert
    | CallFlush
    | Evict(block: nat)
    | Go(thread: nat)
    | Get(thread: nat, from: Option<nat>)   // pool.Get: a pooled block, or a new one
    | Answer(thread: nat, outcome: Outcome)

  const FRESH := Fate(NotYet, false, None, 0, 0)
  const CLEAN := Block([], false, false, None, Current)

  function Init(token: bool): State {
    State(token, [CLEAN], 0, [], [])
  }

  function Goto(s: State, t: nat, pc: Pc): State
    requires t < |s.threads|
  {
    s.(threads := s.threads[t := s.threads[t].(pc := pc)])
  }

  function SetBlock(s: State, b: nat, block: Block): State
    requires b < |s.blocks|
  {
    s.(blocks := s.blocks[b := block])
  }

  /** Change the fate of every event in es. */
  function Touch(s: State, es: seq<nat>, f: Fate -> Fate): State {
    s.(threads := seq(|s.threads|, i requires 0 <= i < |s.threads| =>
         if i in es then s.threads[i].(fate := f(s.threads[i].fate)) else s.threads[i]))
  }

  /** The block is current, or swapped out and waiting for its first flushOnce. */
  predicate BeforeFreeze(s: State, b: Block) {
    || b.place.Current?
    || (&& b.place.Finalizing? && b.place.thread < |s.threads|
        && s.threads[b.place.thread].pc.Freeze? && !s.threads[b.place.thread].pc.again)
  }

  /** block.insert, on whatever block the caller loaded. */
  function StepTry(s: State, t: nat): State
    requires t < |s.threads| && s.threads[t].pc.InsertTry? && s.threads[t].pc.seen < |s.blocks|
  {
    var pc := s.threads[t].pc;
    var b := s.blocks[pc.seen];
    if b.holder.Some? then s
    else if b.frozen then
      Goto(s, t, match pc.next case None => InsertGet(pc.seen) case Some(n) => InsertSwap(pc.seen, n))
    else
      var s' := SetBlock(s, pc.seen, b.(events := b.events + [t]));
      var fate := s.threads[t].fate.(spot := InBlock(pc.seen), safe := BeforeFreeze(s, b));
      var next := match pc.next case None => Finished case Some(n) => Reset(n);
      s'.(threads := s.threads[t := s.threads[t].(pc := next, fate := fate)])
  }

  /** pool.Get by thread t, which then holds the block privately. */
  function StepGet(s: State, t: nat, from: Option<nat>): State
    requires t < |s.threads| && (s.threads[t].pc.InsertGet? || s.threads[t].pc.FlushGet?)
    requires from.Some? ==> from.value < |s.blocks|
  {
    var b := match from case None => |s.blocks| case Some(b) => b;
    var blocks := match from
                  case None => s.blocks + [CLEAN.(place := Private(t))]
                  case Some(b) => s.blocks[b := s.blocks[b].(place := Private(t))];
    Goto(s.(blocks := blocks), t,
         match s.threads[t].pc case InsertGet(seen) => InsertSwap(seen, b) case _ => FlushLoad(b))
  }

  /** The compare-and-swap of cur; the winner's old block goes to finalizer f. */
  function Swapped(s: State, seen: nat, spare: nat, f: nat): State
    requires seen < |s.blocks| && spare < |s.blocks|
  {
    s.(cur := spare,
       blocks := s.blocks[seen := s.blocks[seen].(place := Finalizing(f))]
                         [spare := s.blocks[spare].(place := Current)])
  }

  /** flush: without a token there is nothing to do but put the block back. */
  function FirstOf(s: State, b: nat): Pc {
    if s.token then Freeze(b, false) else Reset(b)
  }

  function StepInsertSwap(s: State, t: nat): State
    requires t < |s.threads| && s.threads[t].pc.InsertSwap?
    requires s.threads[t].pc.seen < |s.blocks| && s.threads[t].pc.spare < |s.blocks|
  {
    var pc := s.threads[t].pc;
    if s.cur != pc.seen then Goto(s, t, InsertLoad(Some(pc.spare)))
    else
      var s' := Goto(Swapped(s, pc.seen, pc.spare, |s.threads|), t, InsertLoad(None));
      s'.(threads := s'.threads + [Thread(FirstOf(s, pc.seen), FRESH, [])])
  }

  function StepFlushSwap(s: State, t: nat): State
    requires t < |s.threads| && s.threads[t].pc.FlushSwap?
    requires s.threads[t].pc.seen < |s.blocks| && s.threads[t].pc.spare < |s.blocks|
  {
    var pc := s.threads[t].pc;
    if s.cur != pc.seen then Goto(s, t, FlushLoad(pc.spare))
    else Goto(Swapped(s, pc.seen, pc.spare, t), t, FirstOf(s, pc.seen))
  }

  /** flushOnce up to the remote calls. */
  function StepFreeze(s: State, t: nat): State
    requires t < |s.threads| && s.threads[t].pc.Freeze? && s.threads[t].pc.block < |s.blocks|
  {
    var pc := s.threads[t].pc;
    var b := s.blocks[pc.block];
    if b.holder.Some? then s
    else if b.flushed then Goto(s, t, if pc.again then Reset(pc.block) else Freeze(pc.block, true))
    else if b.events == [] then
      SetBlock(Goto(s, t, Reset(pc.block)), pc.block, b.(frozen := true, flushed := true))
    else
      Touch(SetBlock(Goto(s, t, Sending(pc.block, pc.again)), pc.block, b.(frozen := true, holder := Some(t))),
            b.events, (f: Fate) => f.(sealed := Some(t)))
  }

  /** The rest of flushOnce, and flush's decision to try once more. */
  function StepAnswer(s: State, t: nat, outcome: Outcome): State
    requires t < |s.threads| && s.threads[t].pc.Sending? && s.threads[t].pc.block < |s.blocks|
  {
    var pc := s.threads[t].pc;
    var b := s.blocks[pc.block];
    var next := if pc.again || outcome.Acked? then Reset(pc.block) else Freeze(pc.block, true);
    var s' := s.(handed := if outcome.Early? then s.handed else s.handed + [Batch(t, pc.block, b.events, outcome.Acked?)],
                 threads := s.threads[t := s.threads[t].(pc := next, ends := s.threads[t].ends + [outcome])]);
    Touch(SetBlock(s', pc.block, b.(holder := None, flushed := outcome.Acked?)), b.events, (f: Fate) => After(f, outcome))
  }

  function After(f: Fate, outcome: Outcome): Fate {
    f.(given := f.given + (if outcome.Early? then 0 else 1), acks := f.acks + (if outcome.Acked? then 1 else 0))
  }

  function StepReset(s: State, t: nat): State
    requires t < |s.threads| && s.threads[t].pc.Reset? && s.threads[t].pc.block < |s.blocks|
  {
    var b := s.threads[t].pc.block;
    if s.blocks[b].holder.Some? then s
    else Touch(SetBlock(Goto(s, t, Return(b)), b, Block([], false, false, None, s.blocks[b].place)),
               s.blocks[b].events, (f: Fate) => f.(spot := Dropped))
  }

  function StepReturn(s: State, t: nat): State
    requires t < |s.threads| && s.threads[t].pc.Return? && s.threads[t].pc.block < |s.blocks|
  {
    var b := s.threads[t].pc.block;
    SetBlock(Goto(s, t, Finished), b, s.blocks[b].(place := Pooled))
  }

  /** The block addresses thread t carries exist. */
  predicate Ready(s: State, t: nat) {
    && t < |s.threads|
    && match s.threads[t].pc
       case InsertLoad(next) => next.Some? ==> next.value < |s.blocks|
       case InsertTry(seen, next) => seen < |s.blocks| && (next.Some? ==> next.value < |s.blocks|)
       case InsertGet(seen) => seen < |s.blocks|
       case InsertSwap(seen, spare) => seen < |s.blocks| && spare < |s.blocks|
       case FlushGet => true
       case FlushLoad(spare) => spare < |s.blocks|
       case FlushSwap(seen, spare) => seen < |s.blocks| && spare < |s.blocks|
       case Freeze(b, _) => b < |s.blocks|
       case Sending(b, _) => b < |s.blocks|
       case Reset(b) => b < |s.blocks|
       case Return(b) => b < |s.blocks|
       case Finished => true
  }

  function Step(s: State, t: nat): State
    requires Ready(s, t)
  {
    match s.threads[t].pc
    case InsertLoad(next) => Goto(s, t, InsertTry(s.cur, next))
    case InsertTry(_, _) => StepTry(s, t)
    case InsertSwap(_, _) => StepInsertSwap(s, t)
    case FlushLoad(spare) => Goto(s, t, FlushSwap(s.cur, spare))
    case FlushSwap(_, _) => StepFlushSwap(s, t)
    case Freeze(_, _) => StepFreeze(s, t)
    case Reset(_) => StepReset(s, t)
    case Return(_) => StepReturn(s, t)
    case _ => s
  }

  function Apply(s: State, m: Move): State {
    match m
    case CallInsert => s.(threads := s.threads + [Thread(InsertLoad(None), FRESH, [])])
    case CallFlush => s.(threads := s.threads + [Thread(FlushGet, FRESH, [])])
    case Evict(b) =>
      if b < |s.blocks| && s.blocks[b].place.Pooled? then SetBlock(s, b, s.blocks[b].(place := Evicted)) else s
    case Go(t) => if Ready(s, t) then Step(s, t) else s
    case Get(t, from) =>
      if && Ready(s, t) && (s.threads[t].pc.InsertGet? || s.threads[t].pc.FlushGet?)
         && (from.Some? ==> from.value < |s.blocks| && s.blocks[from.value].place.Pooled?)
      then StepGet(s, t, from) else s
    case Answer(t, outcome) => if Ready(s, t) && s.threads[t].pc.Sending? then StepAnswer(s, t, outcome) else s
  }

  // ---- the invariant ----

  /** The block a thread keeps to itself: its spare, or the one it is finalizing. */
  function Owns(t: nat, th: Thread): Option<(nat, Place)> {
    match th.pc
    case InsertLoad(next) => if next.Some? then Some((next.value, Private(t))) else None
    case InsertTry(_, next) => if next.Some? then Some((next.value, Private(t))) else None
    case InsertSwap(_, spare) => Some((spare, Private(t)))
    case FlushLoad(spare) => Some((spare, Private(t)))
    case FlushSwap(_, spare) => Some((spare, Private(t)))
    case Freeze(b, _) => Some((b, Finalizing(t)))
    case Sending(b, _) => Some((b, Finalizing(t)))
    case Reset(b) => Some((b, if th.fate.spot.NotYet? then Finalizing(t) else Private(t)))
    case Return(b) => Some((b, if th.fate.spot.NotYet? then Finalizing(t) else Private(t)))
    case _ => None
  }

  /** The state of a block's flags as its finalizer has left them. */
  ghost predicate Stage(s: State, t: nat, b: Block)
    requires t < |s.threads|
  {
    match s.threads[t].pc
    case Freeze(_, again) => b.holder.None? && !b.flushed && (b.frozen <==> again) && (again ==> b.events != [])
    case Sending(_, _) => b.holder == Some(t) && b.frozen && !b.flushed && s.token && b.events != []
    case Reset(_) => b.holder.None? && (s.token ==> b.frozen)
    case Return(_) => b.holder.None? && !b.frozen && !b.flushed
    case _ => false
  }

  ghost predicate BlockOk(s: State, b: nat)
    requires b < |s.blocks|
  {
    var block := s.blocks[b];
    && (block.place.Current? <==> b == s.cur)
    && (block.place.Private? ==>
          && block.place.thread < |s.threads|
          && Owns(block.place.thread, s.threads[block.place.thread]) == Some((b, block.place)))
    && (block.place.Finalizing? ==>
          && block.place.thread < |s.threads|
          && Owns(block.place.thread, s.threads[block.place.thread]) == Some((b, block.place))
          && Stage(s, block.place.thread, block))
    && (!block.place.Finalizing? ==> !block.frozen && !block.flushed && block.holder.None?)
    && (block.flushed ==> block.frozen)
    && (forall i, j :: 0 <= i < j < |block.events| ==> block.events[i] != block.events[j])
    && (forall i :: i in block.events ==> i < |s.threads| && s.threads[i].fate.spot == InBlock(b))
  }

  ghost predicate ThreadOk(s: State, t: nat)
    requires t < |s.threads|
  {
    var th := s.threads[t];
    && Ready(s, t)
    && (Owns(t, th).Some? ==> Owns(t, th).value.0 < |s.blocks| && s.blocks[Owns(t, th).value.0].place == Owns(t, th).value.1)
    && (th.pc.InsertLoad? || th.pc.InsertTry? || th.pc.InsertGet? || th.pc.InsertSwap? ==> th.fate == FRESH)
    && (th.pc.FlushGet? || th.pc.FlushLoad? || th.pc.FlushSwap? || th.pc.Freeze? || th.pc.Sending? ==> th.fate == FRESH)
    && (th.pc.Freeze? ==> s.token) && EndsOk(th)
  }

  /** How many of the attempts got as far as doInsert, and how many were acknowledged. */
  function Given(ends: seq<Outcome>): nat {
    (if |ends| > 0 && !ends[0].Early? then 1 else 0) + (if |ends| > 1 && !ends[1].Early? then 1 else 0)
  }

  function Acks(ends: seq<Outcome>): nat {
    (if |ends| > 0 && ends[0].Acked? then 1 else 0) + (if |ends| > 1 && ends[1].Acked? then 1 else 0)
  }

  /** One attempt that was acknowledged, or two of which the first was not. */
  predicate Over(ends: seq<Outcome>) {
    ends == [Acked] || (|ends| == 2 && !ends[0].Acked?)
  }

  predicate Underway(ends: seq<Outcome>, again: bool) {
    if again then |ends| == 1 && !ends[0].Acked? else ends == []
  }

  predicate EndsOk(th: Thread) {
    match th.pc
    case Freeze(_, again) => Underway(th.ends, again)
    case Sending(_, again) => Underway(th.ends, again)
    case Reset(_) => th.ends == [] || Over(th.ends)
    case Return(_) => th.ends == [] || Over(th.ends)
    case Finished => th.ends == [] || Over(th.ends)
    case _ => th.ends == []
  }

  /** The finalizer that froze the event's block has it still. */
  predicate Sealing(th: Thread) {
    th.pc.Sending? || (th.pc.Freeze? && th.pc.again) || (th.pc.Reset? && Over(th.ends))
  }

  ghost predicate FateOk(s: State, t: nat)
    requires t < |s.threads|
  {
    var f := s.threads[t].fate;
    match f.spot
    case NotYet => f == FRESH
    case InBlock(b) =>
      && b < |s.blocks| && t in s.blocks[b].events
      && (f.safe ==>
            || s.blocks[b].place.Current?
            || (&& s.blocks[b].place.Finalizing? && s.blocks[b].place.thread < |s.threads|
                && !s.threads[s.blocks[b].place.thread].pc.Return?))
      && (f.sealed.Some? <==> s.blocks[b].frozen)
      && (f.sealed.Some? ==>
            && f.sealed.value < |s.threads| && s.blocks[b].place == Finalizing(f.sealed.value)
            && Sealing(s.threads[f.sealed.value]))
      && Counted(s, f)
    case Dropped =>
      && (f.safe && s.token ==> f.sealed.Some?)
      && (f.sealed.Some? ==>
            && f.sealed.value < |s.threads| && Over(s.threads[f.sealed.value].ends)
            && (s.threads[f.sealed.value].pc.Return? || s.threads[f.sealed.value].pc.Finished?))
      && Counted(s, f)
  }

  predicate Counted(s: State, f: Fate) {
    if f.sealed.None? then f.given == 0 && f.acks == 0
    else
      && f.sealed.value < |s.threads|
      && f.given == Given(s.threads[f.sealed.value].ends) && f.acks == Acks(s.threads[f.sealed.value].ends)
  }

  ghost predicate Inv(s: State) {
    && s.cur < |s.blocks|
    && (forall b :: 0 <= b < |s.blocks| ==> BlockOk(s, b))
    && (forall t :: 0 <= t < |s.threads| ==> ThreadOk(s, t))
    && (forall t :: 0 <= t < |s.threads| ==> FateOk(s, t))
  }

  // ---- what a step of thread t that touches only the blocks bs leaves alone ----

  function Owned(s: State, t: nat): set<nat>
    requires t < |s.threads|
  {
    if Owns(t, s.threads[t]).Some? then {Owns(t, s.threads[t]).value.0} else {}
  }

  /** What another thread keeps to itself stays its own. */
  predicate PlaceFramed(p: Place, p': Place, t: nat) {
    (p.Private? || p.Finalizing?) && p.thread != t ==> p' == p
  }

  ghost predicate BlocksFramed(s: State, s': State, t: nat, bs: set<nat>) {
    && s'.token == s.token && |s.blocks| <= |s'.blocks| && s'.cur < |s'.blocks|
    && (forall b :: 0 <= b < |s.blocks| && b !in bs ==> s'.blocks[b] == s.blocks[b])
    && (forall b :: |s.blocks| <= b < |s'.blocks| ==> b in bs)
    && (s'.cur == s.cur || (s.cur in bs && s'.cur in bs))
    && (forall b :: 0 <= b < |s.blocks| && b in bs ==> PlaceFramed(s.blocks[b].place, s'.blocks[b].place, t))
    && (t < |s.threads| ==> Owned(s, t) <= bs)
  }

  predicate InTouched(f: Fate, bs: set<nat>) { f.spot.InBlock? && f.spot.block in bs }

  ghost predicate Touched(s: State, t: nat, bs: set<nat>, i: nat) {
    i < |s.threads| && i != t && InTouched(s.threads[i].fate, bs)
  }

  predicate OtherFramed(th: Thread, th': Thread, bs: set<nat>) {
    && th'.pc == th.pc && th'.ends == th.ends
    && (th'.fate == th.fate || (InTouched(th.fate, bs) && !th'.fate.spot.NotYet?))
  }

  predicate OwnFramed(th: Thread, th': Thread, bs: set<nat>) {
    && (th.fate.spot.InBlock? && th.fate.spot.block !in bs ==> th'.fate == th.fate)
    && (th.pc.Return? || th.pc.Finished? ==> th'.ends == th.ends && (th'.pc.Return? || th'.pc.Finished?))
  }

  ghost predicate ThreadsFramed(s: State, s': State, t: nat, bs: set<nat>) {
    && |s.threads| <= |s'.threads|
    && (forall i :: 0 <= i < |s.threads| && i != t ==> OtherFramed(s.threads[i], s'.threads[i], bs))
    && (t < |s.threads| ==> OwnFramed(s.threads[t], s'.threads[t], bs))
  }

  lemma OtherBlockKeeps(s: State, s': State, t: nat, bs: set<nat>, b: nat)
    requires BlocksFramed(s, s', t, bs) && ThreadsFramed(s, s', t, bs)
    requires b < |s.blocks| && BlockOk(s, b) && b !in bs
    ensures BlockOk(s', b)
  {
    forall i | i in s.blocks[b].events ensures i < |s'.threads| && s'.threads[i].fate.spot == InBlock(b) {
      if i != t { assert OtherFramed(s.threads[i], s'.threads[i], bs); }
    }
    if s.blocks[b].place.Private? || s.blocks[b].place.Finalizing? {
      var i := s.blocks[b].place.thread;
      assert i != t && OtherFramed(s.threads[i], s'.threads[i], bs);
    }
  }

  lemma OtherThreadKeeps(s: State, s': State, t: nat, bs: set<nat>, i: nat)
    requires BlocksFramed(s, s', t, bs) && ThreadsFramed(s, s', t, bs)
    requires i < |s.threads| && i != t && ThreadOk(s, i) && FateOk(s, i)
    ensures ThreadOk(s', i)
  {
    assert OtherFramed(s.threads[i], s'.threads[i], bs);
  }

  lemma OtherFateKeeps(s: State, s': State, t: nat, bs: set<nat>, i: nat)
    requires BlocksFramed(s, s', t, bs) && ThreadsFramed(s, s', t, bs)
    requires i < |s.threads| && i != t && FateOk(s, i) && !Touched(s, t, bs, i)
    requires s.threads[i].fate.spot.InBlock? ==> BlockOk(s, s.threads[i].fate.spot.block)
    ensures FateOk(s', i)
  {
    var f := s.threads[i].fate;
    assert OtherFramed(s.threads[i], s'.threads[i], bs);
    if f.sealed.Some? && f.sealed.value < |s.threads| && f.sealed.value != t {
      assert OtherFramed(s.threads[f.sealed.value], s'.threads[f.sealed.value], bs);
    }
    if f.spot.InBlock? && s.blocks[f.spot.block].place.Finalizing? {
      var j := s.blocks[f.spot.block].place.thread;
      assert j != t && OtherFramed(s.threads[j], s'.threads[j], bs);
    }
  }

  /** So the invariant holds again once it is checked for what the step touches. */
  lemma StepOfOne(s: State, s': State, t: nat, bs: set<nat>)
    requires Inv(s) && BlocksFramed(s, s', t, bs) && ThreadsFramed(s, s', t, bs)
    requires forall b :: 0 <= b < |s'.blocks| && b in bs ==> BlockOk(s', b)
    requires forall i :: 0 <= i < |s'.threads| && (i == t || i >= |s.threads|) ==> ThreadOk(s', i) && FateOk(s', i)
    requires forall i :: Touched(s, t, bs, i) ==> FateOk(s', i)
    ensures Inv(s')
  {
    hide BlockOk, ThreadOk, BlocksFramed, ThreadsFramed;
    SizesFramed(s, s', t, bs);
    forall b | 0 <= b < |s'.blocks| ensures BlockOk(s', b) {
      if b !in bs {
        assert BlockOk(s, b);
        OtherBlockKeeps(s, s', t, bs, b);
      }
    }
    forall i | 0 <= i < |s'.threads| ensures ThreadOk(s', i) && FateOk(s', i) {
      if i < |s.threads| && i != t {
        assert ThreadOk(s, i) && FateOk(s, i);
        OtherThreadKeeps(s, s', t, bs, i);
        if !Touched(s, t, bs, i) {
          assert s.threads[i].fate.spot.InBlock? ==> BlockOk(s, s.threads[i].fate.spot.block);
          OtherFateKeeps(s, s', t, bs, i);
        }
      }
    }
  }

  lemma SizesFramed(s: State, s': State, t: nat, bs: set<nat>)
    requires BlocksFramed(s, s', t, bs) && ThreadsFramed(s, s', t, bs)
    ensures s'.cur < |s'.blocks| && |s.blocks| <= |s'.blocks| && |s.threads| <= |s'.threads|
    ensures forall b :: |s.blocks| <= b < |s'.blocks| ==> b in bs
  {
  }

  // ---- every step keeps the invariant ----

  ghost predicate At(s: State, t: nat) {
    t < |s.threads| && ThreadOk(s, t) && FateOk(s, t)
    && (forall b :: b in Owned(s, t) ==> b < |s.blocks| && BlockOk(s, b))
  }

  ghost predicate AtTry(s: State, t: nat) {
    At(s, t) && s.threads[t].pc.InsertTry? && s.cur < |s.blocks| && BlockOk(s, s.threads[t].pc.seen)
  }

  ghost predicate AtSwap(s: State, t: nat) {
    && t < |s.threads| && ThreadOk(s, t) && FateOk(s, t) && (s.threads[t].pc.InsertSwap? || s.threads[t].pc.FlushSwap?)
    && s.cur < |s.blocks| && BlockOk(s, s.threads[t].pc.seen) && BlockOk(s, s.threads[t].pc.spare)
  }

  ghost predicate AtB(s: State, t: nat) {
    && t < |s.threads| && ThreadOk(s, t) && FateOk(s, t) && s.cur < |s.blocks|
    && (s.threads[t].pc.Freeze? || s.threads[t].pc.Sending? || s.threads[t].pc.Reset? || s.threads[t].pc.Return?)
    && BlockOk(s, s.threads[t].pc.block)
    && (s.threads[t].fate.spot.InBlock? ==> BlockOk(s, s.threads[t].fate.spot.block))
  }

  lemma LoadKeeps(s: State, t: nat)
    requires Inv(s) && t < |s.threads| && ThreadOk(s, t) && FateOk(s, t) && s.threads[t].pc.InsertLoad?
    ensures Inv(Step(s, t))
  {
    hide Over, Given, Acks;
    var s', bs := Step(s, t), Owned(s, t);
    forall b | b in bs ensures BlockOk(s, b) { }
    assert BlocksFramed(s, s', t, bs) && ThreadsFramed(s, s', t, bs);
    forall b | 0 <= b < |s'.blocks| && b in bs ensures BlockOk(s', b) { assert b < |s.blocks| ==> BlockOk(s, b); }
    forall i | Touched(s, t, bs, i) ensures FateOk(s', i) { assert FateOk(s, i); }
    StepOfOne(s, s', t, bs);
  }

  lemma FlushLoadKeeps(s: State, t: nat)
    requires Inv(s) && t < |s.threads| && ThreadOk(s, t) && FateOk(s, t) && s.threads[t].pc.FlushLoad?
    ensures Inv(Step(s, t))
  {
    hide Over, Given, Acks;
    var s', bs := Step(s, t), Owned(s, t);
    forall b | b in bs ensures BlockOk(s, b) { }
    assert BlocksFramed(s, s', t, bs) && ThreadsFramed(s, s', t, bs);
    forall b | 0 <= b < |s'.blocks| && b in bs ensures BlockOk(s', b) { assert b < |s.blocks| ==> BlockOk(s, b); }
    forall i | Touched(s, t, bs, i) ensures FateOk(s', i) { assert FateOk(s, i); }
    StepOfOne(s, s', t, bs);
  }

  lemma TryFrozenKeeps(s: State, t: nat)
    requires Inv(s) && t < |s.threads| && ThreadOk(s, t) && FateOk(s, t) && s.threads[t].pc.InsertTry?
             && s.blocks[s.threads[t].pc.seen].frozen
    ensures Inv(StepTry(s, t))
  {
    hide Over, Given, Acks;
    var s', bs := StepTry(s, t), Owned(s, t);
    forall b | b in bs ensures BlockOk(s, b) { }
    assert BlocksFramed(s, s', t, bs) && ThreadsFramed(s, s', t, bs);
    forall b | 0 <= b < |s'.blocks| && b in bs ensures BlockOk(s', b) { assert b < |s.blocks| ==> BlockOk(s, b); }
    forall i | Touched(s, t, bs, i) ensures FateOk(s', i) { assert FateOk(s, i); }
    StepOfOne(s, s', t, bs);
  }

  lemma TryAppendsFrames(s: State, t: nat)
    requires AtTry(s, t) && s.threads[t].pc.InsertTry? && !s.blocks[s.threads[t].pc.seen].frozen
    ensures var s', bs := StepTry(s, t), Owned(s, t) + {s.threads[t].pc.seen};
            BlocksFramed(s, s', t, bs) && ThreadsFramed(s, s', t, bs)
    ensures |StepTry(s, t).threads| == |s.threads|
  {
  }

  lemma TryAppendsBlock(s: State, t: nat, b: nat)
    requires AtTry(s, t) && s.threads[t].pc.InsertTry? && !s.blocks[s.threads[t].pc.seen].frozen
             && b in Owned(s, t) + {s.threads[t].pc.seen}
    ensures b < |StepTry(s, t).blocks| && BlockOk(StepTry(s, t), b)
  {
    if b == s.threads[t].pc.seen { TryAppendsSeen(s, t); } else { TryAppendsSpare(s, t, b); }
  }

  lemma TryAppendsSeen(s: State, t: nat)
    requires AtTry(s, t) && !s.blocks[s.threads[t].pc.seen].frozen
    ensures var b := s.threads[t].pc.seen;
            b < |StepTry(s, t).blocks| && BlockOk(StepTry(s, t), b)
  {
    hide Owned, EndsOk;
  }

  lemma TryAppendsSpare(s: State, t: nat, b: nat)
    requires AtTry(s, t) && !s.blocks[s.threads[t].pc.seen].frozen && b in Owned(s, t) && b != s.threads[t].pc.seen
    ensures b < |StepTry(s, t).blocks| && BlockOk(StepTry(s, t), b)
  {
    hide EndsOk;
  }

  lemma TryAppendsOwn(s: State, t: nat)
    requires AtTry(s, t) && s.threads[t].pc.InsertTry? && !s.blocks[s.threads[t].pc.seen].frozen
    ensures t < |StepTry(s, t).threads| && ThreadOk(StepTry(s, t), t) && FateOk(StepTry(s, t), t)
  {
  }

  lemma TryAppendsFate(s: State, t: nat, i: nat)
    requires AtTry(s, t) && s.threads[t].pc.InsertTry? && !s.blocks[s.threads[t].pc.seen].frozen
             && Touched(s, t, Owned(s, t) + {s.threads[t].pc.seen}, i) && FateOk(s, i)
    ensures i < |StepTry(s, t).threads| && FateOk(StepTry(s, t), i)
  {
  }

  lemma TryAppendsKeeps(s: State, t: nat)
    requires Inv(s) && AtTry(s, t) && s.threads[t].pc.InsertTry? && !s.blocks[s.threads[t].pc.seen].frozen
    ensures Inv(StepTry(s, t))
  {
    var s', bs := StepTry(s, t), Owned(s, t) + {s.threads[t].pc.seen};
    hide StepTry, Owned, BlockOk, ThreadOk, FateOk, BlocksFramed, ThreadsFramed;
    TryAppendsFrames(s, t);
    SizesFramed(s, s', t, bs);
    TryAppendsOwn(s, t);
    forall b | 0 <= b < |s'.blocks| && b in bs ensures BlockOk(s', b) { TryAppendsBlock(s, t, b); }
    forall i | Touched(s, t, bs, i) ensures FateOk(s', i) {
      assert FateOk(s, i);
      TryAppendsFate(s, t, i);
    }
    StepOfOne(s, s', t, bs);
  }

  lemma GetNewKeeps(s: State, t: nat)
    requires Inv(s) && t < |s.threads| && ThreadOk(s, t) && FateOk(s, t)
    requires s.threads[t].pc.InsertGet? || s.threads[t].pc.FlushGet?
    ensures Inv(StepGet(s, t, None))
  {
    var s', bs := StepGet(s, t, None), {|s.blocks|};
    assert BlocksFramed(s, s', t, bs) && ThreadsFramed(s, s', t, bs);
    assert BlockOk(s', |s.blocks|);
    forall i | 0 <= i < |s.threads| ensures !InTouched(s.threads[i].fate, bs) { assert FateOk(s, i); }
    StepOfOne(s, s', t, bs);
  }

  lemma GetOldKeeps(s: State, t: nat, b: nat)
    requires Inv(s) && t < |s.threads| && ThreadOk(s, t) && FateOk(s, t)
    requires s.threads[t].pc.InsertGet? || s.threads[t].pc.FlushGet?
    requires b < |s.blocks| && s.blocks[b].place.Pooled?
    ensures Inv(StepGet(s, t, Some(b)))
  {
    hide Over, Given, Acks;
    var s', bs := StepGet(s, t, Some(b)), {b};
    assert BlockOk(s, b);
    assert BlocksFramed(s, s', t, bs) && ThreadsFramed(s, s', t, bs);
    forall b | 0 <= b < |s'.blocks| && b in bs ensures BlockOk(s', b) { assert b < |s.blocks| ==> BlockOk(s, b); }
    forall i | Touched(s, t, bs, i) ensures FateOk(s', i) { assert FateOk(s, i); }
    StepOfOne(s, s', t, bs);
  }

  lemma InsertSwapLosesKeeps(s: State, t: nat)
    requires Inv(s) && t < |s.threads| && ThreadOk(s, t) && FateOk(s, t) && s.threads[t].pc.InsertSwap?
             && s.cur != s.threads[t].pc.seen
    ensures Inv(StepInsertSwap(s, t))
  {
    hide Over, Given, Acks;
    var s', bs := StepInsertSwap(s, t), Owned(s, t);
    forall b | b in bs ensures BlockOk(s, b) { }
    assert BlocksFramed(s, s', t, bs) && ThreadsFramed(s, s', t, bs);
    forall b | 0 <= b < |s'.blocks| && b in bs ensures BlockOk(s', b) { assert b < |s.blocks| ==> BlockOk(s, b); }
    forall i | Touched(s, t, bs, i) ensures FateOk(s', i) { assert FateOk(s, i); }
    StepOfOne(s, s', t, bs);
  }

  lemma InsertSwapWinsFrames(s: State, t: nat)
    requires AtSwap(s, t) && s.threads[t].pc.InsertSwap? && s.cur == s.threads[t].pc.seen
    ensures var s', bs := StepInsertSwap(s, t), {s.threads[t].pc.seen, s.threads[t].pc.spare};
            BlocksFramed(s, s', t, bs) && ThreadsFramed(s, s', t, bs)
  {
  }

  lemma InsertSwapWinsBlock(s: State, t: nat, b: nat)
    requires AtSwap(s, t) && s.threads[t].pc.InsertSwap? && s.cur == s.threads[t].pc.seen
             && b in {s.threads[t].pc.seen, s.threads[t].pc.spare}
    ensures b < |StepInsertSwap(s, t).blocks| && BlockOk(StepInsertSwap(s, t), b)
  {
  }

  lemma InsertSwapWinsOwn(s: State, t: nat)
    requires AtSwap(s, t) && s.threads[t].pc.InsertSwap? && s.cur == s.threads[t].pc.seen
    ensures t < |StepInsertSwap(s, t).threads| && ThreadOk(StepInsertSwap(s, t), t) && FateOk(StepInsertSwap(s, t), t)
  {
  }

  lemma InsertSwapWinsFate(s: State, t: nat, i: nat)
    requires AtSwap(s, t) && s.threads[t].pc.InsertSwap? && s.cur == s.threads[t].pc.seen
             && Touched(s, t, {s.threads[t].pc.seen, s.threads[t].pc.spare}, i) && FateOk(s, i)
    ensures i < |StepInsertSwap(s, t).threads| && FateOk(StepInsertSwap(s, t), i)
  {
  }

  lemma InsertSwapWinsNew(s: State, t: nat)
    requires AtSwap(s, t) && s.threads[t].pc.InsertSwap? && s.cur == s.threads[t].pc.seen
    ensures |StepInsertSwap(s, t).threads| == |s.threads| + 1 && ThreadOk(StepInsertSwap(s, t), |s.threads|)
            && FateOk(StepInsertSwap(s, t), |s.threads|)
  {
  }

  lemma InsertSwapWinsKeeps(s: State, t: nat)
    requires Inv(s) && AtSwap(s, t) && s.threads[t].pc.InsertSwap? && s.cur == s.threads[t].pc.seen
    ensures Inv(StepInsertSwap(s, t))
  {
    var s', bs := StepInsertSwap(s, t), {s.threads[t].pc.seen, s.threads[t].pc.spare};
    hide StepInsertSwap, Owned, BlockOk, ThreadOk, FateOk, BlocksFramed, ThreadsFramed;
    InsertSwapWinsFrames(s, t);
    SizesFramed(s, s', t, bs);
    InsertSwapWinsOwn(s, t);
    forall b | 0 <= b < |s'.blocks| && b in bs ensures BlockOk(s', b) { InsertSwapWinsBlock(s, t, b); }
    forall i | Touched(s, t, bs, i) ensures FateOk(s', i) {
      assert FateOk(s, i);
      InsertSwapWinsFate(s, t, i);
    }
    InsertSwapWinsNew(s, t);
    StepOfOne(s, s', t, bs);
  }

  lemma FlushSwapLosesKeeps(s: State, t: nat)
    requires Inv(s) && t < |s.threads| && ThreadOk(s, t) && FateOk(s, t) && s.threads[t].pc.FlushSwap?
             && s.cur != s.threads[t].pc.seen
    ensures Inv(StepFlushSwap(s, t))
  {
    hide Over, Given, Acks;
    var s', bs := StepFlushSwap(s, t), Owned(s, t);
    forall b | b in bs ensures BlockOk(s, b) { }
    assert BlocksFramed(s, s', t, bs) && ThreadsFramed(s, s', t, bs);
    forall b | 0 <= b < |s'.blocks| && b in bs ensures BlockOk(s', b) { assert b < |s.blocks| ==> BlockOk(s, b); }
    forall i | Touched(s, t, bs, i) ensures FateOk(s', i) { assert FateOk(s, i); }
    StepOfOne(s, s', t, bs);
  }

  lemma FlushSwapWinsFrames(s: State, t: nat)
    requires AtSwap(s, t) && s.threads[t].pc.FlushSwap? && s.cur == s.threads[t].pc.seen
    ensures var s', bs := StepFlushSwap(s, t), {s.threads[t].pc.seen, s.threads[t].pc.spare};
            BlocksFramed(s, s', t, bs) && ThreadsFramed(s, s', t, bs)
    ensures |StepFlushSwap(s, t).threads| == |s.threads|
  {
  }

  lemma FlushSwapWinsBlock(s: State, t: nat, b: nat)
    requires AtSwap(s, t) && s.threads[t].pc.FlushSwap? && s.cur == s.threads[t].pc.seen
             && b in {s.threads[t].pc.seen, s.threads[t].pc.spare}
    ensures b < |StepFlushSwap(s, t).blocks| && BlockOk(StepFlushSwap(s, t), b)
  {
  }

  lemma FlushSwapWinsOwn(s: State, t: nat)
    requires AtSwap(s, t) && s.threads[t].pc.FlushSwap? && s.cur == s.threads[t].pc.seen
    ensures t < |StepFlushSwap(s, t).threads| && ThreadOk(StepFlushSwap(s, t), t) && FateOk(StepFlushSwap(s, t), t)
  {
  }

  lemma FlushSwapWinsFate(s: State, t: nat, i: nat)
    requires AtSwap(s, t) && s.threads[t].pc.FlushSwap? && s.cur == s.threads[t].pc.seen
             && Touched(s, t, {s.threads[t].pc.seen, s.threads[t].pc.spare}, i) && FateOk(s, i)
    ensures i < |StepFlushSwap(s, t).threads| && FateOk(StepFlushSwap(s, t), i)
  {
  }

  lemma FlushSwapWinsKeeps(s: State, t: nat)
    requires Inv(s) && AtSwap(s, t) && s.threads[t].pc.FlushSwap? && s.cur == s.threads[t].pc.seen
    ensures Inv(StepFlushSwap(s, t))
  {
    var s', bs := StepFlushSwap(s, t), {s.threads[t].pc.seen, s.threads[t].pc.spare};
    hide StepFlushSwap, Owned, BlockOk, ThreadOk, FateOk, BlocksFramed, ThreadsFramed;
    FlushSwapWinsFrames(s, t);
    SizesFramed(s, s', t, bs);
    FlushSwapWinsOwn(s, t);
    forall b | 0 <= b < |s'.blocks| && b in bs ensures BlockOk(s', b) { FlushSwapWinsBlock(s, t, b); }
    forall i | Touched(s, t, bs, i) ensures FateOk(s', i) {
      assert FateOk(s, i);
      FlushSwapWinsFate(s, t, i);
    }
    StepOfOne(s, s', t, bs);
  }

  lemma FreezeFrames(s: State, t: nat)
    requires AtB(s, t) && s.threads[t].pc.Freeze?
    ensures var s', bs := StepFreeze(s, t), {s.threads[t].pc.block};
            BlocksFramed(s, s', t, bs) && ThreadsFramed(s, s', t, bs)
    ensures |StepFreeze(s, t).threads| == |s.threads|
  {
  }

  lemma FreezeBlock(s: State, t: nat, b: nat)
    requires AtB(s, t) && s.threads[t].pc.Freeze? && b in {s.threads[t].pc.block}
    ensures b < |StepFreeze(s, t).blocks| && BlockOk(StepFreeze(s, t), b)
  {
  }

  lemma FreezeOwn(s: State, t: nat)
    requires AtB(s, t) && s.threads[t].pc.Freeze?
    ensures t < |StepFreeze(s, t).threads| && ThreadOk(StepFreeze(s, t), t) && FateOk(StepFreeze(s, t), t)
  {
  }

  lemma FreezeFate(s: State, t: nat, i: nat)
    requires AtB(s, t) && s.threads[t].pc.Freeze? && Touched(s, t, {s.threads[t].pc.block}, i) && FateOk(s, i)
    ensures i < |StepFreeze(s, t).threads| && FateOk(StepFreeze(s, t), i)
  {
  }

  lemma FreezeKeeps(s: State, t: nat)
    requires Inv(s) && AtB(s, t) && s.threads[t].pc.Freeze?
    ensures Inv(StepFreeze(s, t))
  {
    var s', bs := StepFreeze(s, t), {s.threads[t].pc.block};
    hide StepFreeze, Owned, BlockOk, ThreadOk, FateOk, BlocksFramed, ThreadsFramed;
    FreezeFrames(s, t);
    SizesFramed(s, s', t, bs);
    FreezeOwn(s, t);
    forall b | 0 <= b < |s'.blocks| && b in bs ensures BlockOk(s', b) { FreezeBlock(s, t, b); }
    forall i | Touched(s, t, bs, i) ensures FateOk(s', i) {
      assert FateOk(s, i);
      FreezeFate(s, t, i);
    }
    StepOfOne(s, s', t, bs);
  }

  lemma AnswerFrames(s: State, t: nat, outcome: Outcome)
    requires AtB(s, t) && s.threads[t].pc.Sending?
    ensures var s', bs := StepAnswer(s, t, outcome), {s.threads[t].pc.block};
            BlocksFramed(s, s', t, bs) && ThreadsFramed(s, s', t, bs)
    ensures |StepAnswer(s, t, outcome).threads| == |s.threads|
  {
  }

  lemma AnswerBlock(s: State, t: nat, outcome: Outcome, b: nat)
    requires AtB(s, t) && s.threads[t].pc.Sending? && b in {s.threads[t].pc.block}
    ensures b < |StepAnswer(s, t, outcome).blocks| && BlockOk(StepAnswer(s, t, outcome), b)
  {
  }

  lemma AnswerOwn(s: State, t: nat, outcome: Outcome)
    requires AtB(s, t) && s.threads[t].pc.Sending?
    ensures t < |StepAnswer(s, t, outcome).threads| && ThreadOk(StepAnswer(s, t, outcome), t)
            && FateOk(StepAnswer(s, t, outcome), t)
  {
  }

  lemma AnswerFate(s: State, t: nat, outcome: Outcome, i: nat)
    requires AtB(s, t) && s.threads[t].pc.Sending? && Touched(s, t, {s.threads[t].pc.block}, i) && FateOk(s, i)
    ensures i < |StepAnswer(s, t, outcome).threads| && FateOk(StepAnswer(s, t, outcome), i)
  {
  }

  lemma AnswerKeeps(s: State, t: nat, outcome: Outcome)
    requires Inv(s) && AtB(s, t) && s.threads[t].pc.Sending?
    ensures Inv(StepAnswer(s, t, outcome))
  {
    var s', bs := StepAnswer(s, t, outcome), {s.threads[t].pc.block};
    hide StepAnswer, Owned, BlockOk, ThreadOk, FateOk, BlocksFramed, ThreadsFramed;
    AnswerFrames(s, t, outcome);
    SizesFramed(s, s', t, bs);
    AnswerOwn(s, t, outcome);
    forall b | 0 <= b < |s'.blocks| && b in bs ensures BlockOk(s', b) { AnswerBlock(s, t, outcome, b); }
    forall i | Touched(s, t, bs, i) ensures FateOk(s', i) {
      assert FateOk(s, i);
      AnswerFate(s, t, outcome, i);
    }
    StepOfOne(s, s', t, bs);
  }

  lemma ResetFrames(s: State, t: nat)
    requires AtB(s, t) && s.threads[t].pc.Reset?
    ensures var s', bs := StepReset(s, t), {s.threads[t].pc.block};
            BlocksFramed(s, s', t, bs) && ThreadsFramed(s, s', t, bs)
    ensures |StepReset(s, t).threads| == |s.threads|
  {
  }

  lemma ResetBlock(s: State, t: nat, b: nat)
    requires AtB(s, t) && s.threads[t].pc.Reset? && b in {s.threads[t].pc.block}
    ensures b < |StepReset(s, t).blocks| && BlockOk(StepReset(s, t), b)
  {
  }

  lemma ResetOwn(s: State, t: nat)
    requires AtB(s, t) && s.threads[t].pc.Reset?
    ensures t < |StepReset(s, t).threads| && ThreadOk(StepReset(s, t), t) && FateOk(StepReset(s, t), t)
  {
    hide Given, Acks;
  }

  lemma ResetFate(s: State, t: nat, i: nat)
    requires AtB(s, t) && s.threads[t].pc.Reset? && Touched(s, t, {s.threads[t].pc.block}, i) && FateOk(s, i)
    ensures i < |StepReset(s, t).threads| && FateOk(StepReset(s, t), i)
  {
    hide Given, Acks, EndsOk;
  }

  lemma ResetKeeps(s: State, t: nat)
    requires Inv(s) && AtB(s, t) && s.threads[t].pc.Reset?
    ensures Inv(StepReset(s, t))
  {
    var s', bs := StepReset(s, t), {s.threads[t].pc.block};
    hide StepReset, Owned, BlockOk, ThreadOk, FateOk, BlocksFramed, ThreadsFramed;
    ResetFrames(s, t);
    SizesFramed(s, s', t, bs);
    ResetOwn(s, t);
    forall b | 0 <= b < |s'.blocks| && b in bs ensures BlockOk(s', b) { ResetBlock(s, t, b); }
    forall i | Touched(s, t, bs, i) ensures FateOk(s', i) {
      assert FateOk(s, i);
      ResetFate(s, t, i);
    }
    StepOfOne(s, s', t, bs);
  }

  lemma ReturnFrames(s: State, t: nat)
    requires AtB(s, t) && s.threads[t].pc.Return?
    ensures var s', bs := StepReturn(s, t), {s.threads[t].pc.block};
            BlocksFramed(s, s', t, bs) && ThreadsFramed(s, s', t, bs)
    ensures |StepReturn(s, t).threads| == |s.threads|
  {
  }

  lemma ReturnBlock(s: State, t: nat, b: nat)
    requires AtB(s, t) && s.threads[t].pc.Return? && b in {s.threads[t].pc.block}
    ensures b < |StepReturn(s, t).blocks| && BlockOk(StepReturn(s, t), b)
  {
  }

  lemma ReturnOwn(s: State, t: nat)
    requires AtB(s, t) && s.threads[t].pc.Return?
    ensures t < |StepReturn(s, t).threads| && ThreadOk(StepReturn(s, t), t) && FateOk(StepReturn(s, t), t)
  {
  }

  lemma ReturnFate(s: State, t: nat, i: nat)
    requires AtB(s, t) && s.threads[t].pc.Return? && Touched(s, t, {s.threads[t].pc.block}, i) && FateOk(s, i)
    ensures i < |StepReturn(s, t).threads| && FateOk(StepReturn(s, t), i)
  {
  }

  lemma ReturnKeeps(s: State, t: nat)
    requires Inv(s) && AtB(s, t) && s.threads[t].pc.Return?
    ensures Inv(StepReturn(s, t))
  {
    var s', bs := StepReturn(s, t), {s.threads[t].pc.block};
    hide StepReturn, Owned, BlockOk, ThreadOk, FateOk, BlocksFramed, ThreadsFramed;
    ReturnFrames(s, t);
    SizesFramed(s, s', t, bs);
    ReturnOwn(s, t);
    forall b | 0 <= b < |s'.blocks| && b in bs ensures BlockOk(s', b) { ReturnBlock(s, t, b); }
    forall i | Touched(s, t, bs, i) ensures FateOk(s', i) {
      assert FateOk(s, i);
      ReturnFate(s, t, i);
    }
    StepOfOne(s, s', t, bs);
  }

  lemma CallKeeps(s: State, m: Move)
    requires Inv(s) && (m.CallInsert? || m.CallFlush?)
    ensures Inv(Apply(s, m))
  {
    StepOfOne(s, Apply(s, m), |s.threads|, {});
  }

  lemma EvictKeeps(s: State, b: nat)
    requires Inv(s) && b < |s.blocks| && s.blocks[b].place.Pooled?
    ensures Inv(SetBlock(s, b, s.blocks[b].(place := Evicted)))
  {
    var s', t := SetBlock(s, b, s.blocks[b].(place := Evicted)), |s.threads|;
    assert BlockOk(s, b);
    assert BlocksFramed(s, s', t, {b}) && ThreadsFramed(s, s', t, {b});
    assert BlockOk(s', b);
    forall i | Touched(s, t, {b}, i) ensures FateOk(s', i) { assert FateOk(s, i); }
    StepOfOne(s, s', t, {b});
  }

  lemma StepKeepsInv(s: State, m: Move)
    requires Inv(s)
    ensures Inv(Apply(s, m))
  {
    match m
    case CallInsert => CallKeeps(s, m);
    case CallFlush => CallKeeps(s, m);
    case Evict(b) => if b < |s.blocks| && s.blocks[b].place.Pooled? { EvictKeeps(s, b); }
    case Go(t) => if Ready(s, t) { assert ThreadOk(s, t) && FateOk(s, t); GoKeeps(s, t); }
    case Get(t, from) =>
      if Ready(s, t) {
        assert ThreadOk(s, t) && FateOk(s, t);
        if s.threads[t].pc.InsertGet? || s.threads[t].pc.FlushGet? {
          match from
          case None => GetNewKeeps(s, t);
          case Some(b) => if b < |s.blocks| && s.blocks[b].place.Pooled? { GetOldKeeps(s, t, b); }
        }
      }
    case Answer(t, outcome) =>
      if Ready(s, t) && s.threads[t].pc.Sending? {
        assert ThreadOk(s, t) && FateOk(s, t) && BlockOk(s, s.threads[t].pc.block);
        AnswerKeeps(s, t, outcome);
      }
  }

  lemma GoKeeps(s: State, t: nat)
    requires Inv(s) && t < |s.threads| && ThreadOk(s, t) && FateOk(s, t)
    ensures Inv(Step(s, t))
  {
    var pc := s.threads[t].pc;
    match pc
    case InsertLoad(_) => LoadKeeps(s, t);
    case InsertTry(_, _) =>
      if s.blocks[pc.seen].frozen { TryFrozenKeeps(s, t); }
      else { TryAppendsKeeps(s, t); }
    case InsertSwap(_, _) => if s.cur == pc.seen { InsertSwapWinsKeeps(s, t); } else { InsertSwapLosesKeeps(s, t); }
    case FlushLoad(_) => FlushLoadKeeps(s, t);
    case FlushSwap(_, _) => if s.cur == pc.seen { FlushSwapWinsKeeps(s, t); } else { FlushSwapLosesKeeps(s, t); }
    case Freeze(b, _) =>
      assert BlockOk(s, b); FreezeKeeps(s, t);
    case Reset(b) =>
      assert BlockOk(s, b); ResetKeeps(s, t);
    case Return(b) =>
      assert BlockOk(s, b); ReturnKeeps(s, t);
    case _ =>
  }

  // ---- over every run ----

  ghost predicate Reachable(s: State) {
    exists ms: seq<Move> :: s == Run(Apply, Init(s.token), ms)
  }

  lemma ReachableInv(s: State)
    requires Reachable(s)
    ensures Inv(s)
  {
    var ms: seq<Move> :| s == Run(Apply, Init(s.token), ms);
    forall s, m | Inv(s) ensures Inv(Apply(s, m)) {
      StepKeepsInv(s, m);
    }
    RunKeeps(Apply, Inv, Init(s.token), ms);
  }

  /** A thread's own block is nobody else's, is not current, and is not in the pool. */
  lemma OwnersAreExclusive(s: State, t: nat, t': nat)
    requires Reachable(s) && t < |s.threads| && t' < |s.threads|
    requires Owns(t, s.threads[t]).Some?
    ensures var b := Owns(t, s.threads[t]).value.0;
            && b < |s.blocks| && b != s.cur && !s.blocks[b].place.Pooled? && !s.blocks[b].place.Evicted?
            && (t' != t && Owns(t', s.threads[t']).Some? ==> Owns(t', s.threads[t']).value.0 != b)
  {
    ReachableInv(s);
    assert ThreadOk(s, t) && ThreadOk(s, t');
    assert BlockOk(s, Owns(t, s.threads[t]).value.0);
  }

  /** Every block is current, in the pool, gone, or in the hands of the thread it names. */
  lemma BlockHasOnePlace(s: State, b: nat)
    requires Reachable(s) && b < |s.blocks|
    ensures match s.blocks[b].place
            case Current => b == s.cur
            case Pooled => b != s.cur
            case Evicted => b != s.cur
            case Private(t) => t < |s.threads| && Owns(t, s.threads[t]) == Some((b, Private(t)))
            case Finalizing(t) => t < |s.threads| && Owns(t, s.threads[t]) == Some((b, Finalizing(t)))
  {
    ReachableInv(s);
    assert BlockOk(s, b);
  }

  ghost predicate Finalizes(th: Thread, b: nat) {
    th.pc == Freeze(b, false) || th.pc == Freeze(b, true) || th.pc == Sending(b, false) || th.pc == Sending(b, true)
  }

  /** Finalizers never overlap on a block, and none finds its block flushed already. */
  lemma FinalizersNeverOverlap(s: State, t: nat, t': nat, b: nat)
    requires Reachable(s) && t < |s.threads| && t' < |s.threads| && b < |s.blocks|
    requires Finalizes(s.threads[t], b) && Finalizes(s.threads[t'], b)
    ensures t == t' && !s.blocks[b].flushed
  {
    ReachableInv(s);
    assert ThreadOk(s, t) && ThreadOk(s, t') && BlockOk(s, b);
  }

  // ---- an event's fate and the batches handed over ----

  function Has(t: nat): Batch -> int { (batch: Batch) => if t in batch.events then 1 else 0 }
  function HasAcked(t: nat): Batch -> int { (batch: Batch) => if t in batch.events && batch.acked then 1 else 0 }

  /** The two counters of an event's fate count batches of the history. */
  ghost predicate Tallied(s: State, t: nat) {
    && Sum(Has(t), s.handed) == (if t < |s.threads| then s.threads[t].fate.given else 0)
    && Sum(HasAcked(t), s.handed) == (if t < |s.threads| then s.threads[t].fate.acks else 0)
  }

  lemma AnswerTallies(s: State, f: nat, outcome: Outcome, t: nat)
    requires Inv(s) && Tallied(s, t) && Ready(s, f) && s.threads[f].pc.Sending?
    ensures Tallied(StepAnswer(s, f, outcome), t)
  {
    hide Sum;
    var b := s.threads[f].pc.block;
    assert ThreadOk(s, f) && BlockOk(s, b);
    var batch := Batch(f, b, s.blocks[b].events, outcome.Acked?);
    SumAppend(Has(t), s.handed, batch);
    SumAppend(HasAcked(t), s.handed, batch);
  }

  lemma StepTallies(s: State, m: Move, t: nat)
    requires Inv(s) && Tallied(s, t)
    ensures Tallied(Apply(s, m), t)
  {
    if m.Answer? {
      if Ready(s, m.thread) && s.threads[m.thread].pc.Sending? { AnswerTallies(s, m.thread, m.outcome, t); }
    } else {
      hide Sum;
      if m.Go? && Ready(s, m.thread) {
        assert ThreadOk(s, m.thread) && FateOk(s, m.thread);
        StepCounts(s, m.thread, t);
      }
    }
  }

  lemma StepCounts(s: State, i: nat, t: nat)
    requires Ready(s, i)
    ensures Step(s, i).handed == s.handed && |s.threads| <= |Step(s, i).threads|
    ensures t < |s.threads| ==> Step(s, i).threads[t].fate.given == s.threads[t].fate.given
                                && Step(s, i).threads[t].fate.acks == s.threads[t].fate.acks
    ensures |s.threads| <= t < |Step(s, i).threads| ==> Step(s, i).threads[t].fate == FRESH
  {
  }

  /** Event t stays with the finalizer that froze it, and only that one hands it over. */
  ghost predicate HandedBySealer(s: State, t: nat) {
    forall k :: 0 <= k < |s.handed| && t in s.handed[k].events ==>
      t < |s.threads| && s.threads[t].fate.sealed == Some(s.handed[k].finalizer)
  }

  lemma StepKeepsSealer(s: State, m: Move, t: nat)
    requires Inv(s) && t < |s.threads| && s.threads[t].fate.sealed.Some?
    ensures t < |Apply(s, m).threads| && Apply(s, m).threads[t].fate.sealed == s.threads[t].fate.sealed
  {
    assert ThreadOk(s, t) && FateOk(s, t);
    if m.Go? && Ready(s, m.thread) {
      var i := m.thread;
      assert ThreadOk(s, i);
      if s.threads[i].pc.Freeze? { assert BlockOk(s, s.threads[i].pc.block); }
      GoKeepsSealer(s, i, t);
    }
  }

  lemma GoKeepsSealer(s: State, i: nat, t: nat)
    requires Ready(s, i) && ThreadOk(s, i) && t < |s.threads| && FateOk(s, t) && s.threads[t].fate.sealed.Some?
    requires s.threads[t].pc.InsertTry? ==> s.threads[t].fate == FRESH
    requires s.threads[i].pc.Freeze? ==> BlockOk(s, s.threads[i].pc.block)
    ensures t < |Step(s, i).threads| && Step(s, i).threads[t].fate.sealed == s.threads[t].fate.sealed
  {
  }

  lemma StepKeepsHanded(s: State, m: Move, t: nat)
    requires Inv(s) && HandedBySealer(s, t)
    ensures HandedBySealer(Apply(s, m), t)
  {
    if t < |s.threads| && s.threads[t].fate.sealed.Some? { StepKeepsSealer(s, m, t); }
    if m.Answer? && Ready(s, m.thread) && s.threads[m.thread].pc.Sending? {
      var b := s.threads[m.thread].pc.block;
      assert ThreadOk(s, m.thread) && BlockOk(s, b);
      if t in s.blocks[b].events { assert FateOk(s, t); }
    } else if m.Go? && Ready(s, m.thread) {
      StepCounts(s, m.thread, t);
    }
  }

  lemma ReachableTallies(s: State, t: nat)
    requires Reachable(s)
    ensures Inv(s) && Tallied(s, t) && HandedBySealer(s, t)
  {
    var ms: seq<Move> :| s == Run(Apply, Init(s.token), ms);
    var ok := s => Inv(s) && Tallied(s, t) && HandedBySealer(s, t);
    forall s, m | ok(s) ensures ok(Apply(s, m)) {
      StepKeepsInv(s, m);
      StepTallies(s, m, t);
      StepKeepsHanded(s, m, t);
    }
    RunKeeps(Apply, ok, Init(s.token), ms);
  }

  /** Event t was in a batch given to doInsert. */
  ghost predicate WasHanded(s: State, t: nat) {
    exists k :: 0 <= k < |s.handed| && t in s.handed[k].events
  }

  lemma HandedMeansGiven(s: State, t: nat)
    requires Tallied(s, t) && t < |s.threads|
    ensures WasHanded(s, t) <==> s.threads[t].fate.given > 0
  {
    if WasHanded(s, t) {
      var k :| 0 <= k < |s.handed| && t in s.handed[k].events;
      SumAtLeast(Has(t), s.handed, k);
    }
    if s.threads[t].fate.given > 0 {
      var k := SumWitness(Has(t), s.handed);
      assert t in s.handed[k].events;
    }
  }

  /** A dropped event was handed to doInsert if and only if it was frozen into a block whose two
      attempts did not both end before doInsert; with a token every safe event was frozen. */
  lemma DroppedIsHandedExactly(s: State, t: nat)
    requires Reachable(s) && t < |s.threads| && s.threads[t].fate.spot.Dropped?
    ensures var f := s.threads[t].fate.sealed;
            && (f.Some? ==> f.value < |s.threads| && Over(s.threads[f.value].ends))
            && (WasHanded(s, t) <==> f.Some? && s.threads[f.value].ends != [Early, Early])
            && (s.token && s.threads[t].fate.safe ==> f.Some?)
  {
    ReachableTallies(s, t);
    HandedMeansGiven(s, t);
    assert FateOk(s, t);
  }

  /** If the finalizer that froze an event was acknowledged, the event was in the batch that was;
      if it was not, the event was in none that was. */
  lemma AckedFinalizationHandedIt(s: State, t: nat)
    requires Reachable(s) && t < |s.threads| && s.threads[t].fate.sealed.Some?
    ensures var f := s.threads[t].fate.sealed.value;
            && f < |s.threads|
            && (Acked in s.threads[f].ends <==>
                  exists k :: 0 <= k < |s.handed| && t in s.handed[k].events && s.handed[k].acked
                              && s.handed[k].finalizer == f)
  {
    ReachableTallies(s, t);
    assert FateOk(s, t);
    var f := s.threads[t].fate.sealed.value;
    assert ThreadOk(s, f) && EndsOk(s.threads[f]);
    if Acked in s.threads[f].ends {
      var k := SumWitness(HasAcked(t), s.handed);
      assert t in s.handed[k].events && s.handed[k].acked;
    }
    if k :| 0 <= k < |s.handed| && t in s.handed[k].events && s.handed[k].acked {
      SumAtLeast(HasAcked(t), s.handed, k);
    }
  }

  /** An event is in at most one acknowledged batch, over the whole run. */
  lemma AckedAtMostOnce(s: State, t: nat, j: nat, k: nat)
    requires Reachable(s) && j < k < |s.handed| && t in s.handed[j].events && t in s.handed[k].events
    ensures !(s.handed[j].acked && s.handed[k].acked)
  {
    ReachableTallies(s, t);
    SumAtLeast(Has(t), s.handed, k);
    SumAtLeastTwo(HasAcked(t), s.handed, j, k);
    assert t < |s.threads| && FateOk(s, t);
    if s.threads[t].fate.sealed.Some? {
      assert ThreadOk(s, s.threads[t].fate.sealed.value);
    }
  }

  /** What a finalizer hands to doInsert is everything inserted into its block. */
  lemma HandsEverything(s: State, t: nat, outcome: Outcome, i: nat)
    requires Reachable(s) && t < |s.threads| && s.threads[t].pc.Sending? && !outcome.Early?
    requires i < |s.threads|
    ensures var b, s' := s.threads[t].pc.block, Apply(s, Answer(t, outcome));
            && b < |s.blocks| && |s'.handed| == |s.handed| + 1 && s'.handed[..|s.handed|] == s.handed
            && var batch := s'.handed[|s.handed|];
               && batch == Batch(t, b, s.blocks[b].events, outcome.Acked?)
               && (i in batch.events <==> s.threads[i].fate.spot == InBlock(b))
               && (i in batch.events ==> s.threads[i].fate.sealed == Some(t))
  {
    ReachableInv(s);
    assert ThreadOk(s, t);
    var b := s.threads[t].pc.block;
    assert BlockOk(s, b) && FateOk(s, i);
  }

  /** Between freeze and reset a block's events do not change. */
  lemma FrozenIsConstant(s: State, m: Move, b: nat)
    requires Reachable(s) && b < |s.blocks| && s.blocks[b].frozen
    requires !(m.Go? && m.thread < |s.threads| && s.threads[m.thread].pc == Reset(b))
    ensures b < |Apply(s, m).blocks| && Apply(s, m).blocks[b].events == s.blocks[b].events
    ensures Apply(s, m).blocks[b].frozen
  {
    ReachableInv(s);
    assert BlockOk(s, b);
    if (m.Go? || m.Get? || m.Answer?) && m.thread < |s.threads| {
      assert ThreadOk(s, m.thread) && FateOk(s, m.thread);
      if Owns(m.thread, s.threads[m.thread]).Some? { assert BlockOk(s, Owns(m.thread, s.threads[m.thread]).value.0); }
      if m.Go? { StepKeepsFrozen(s, m.thread, b); } else { OthersKeepFrozen(s, m, b); }
    }
  }

  lemma OthersKeepFrozen(s: State, m: Move, b: nat)
    requires (m.Get? || m.Answer?) && b < |s.blocks| && BlockOk(s, b) && s.blocks[b].frozen
    ensures b < |Apply(s, m).blocks| && Apply(s, m).blocks[b].events == s.blocks[b].events
    ensures Apply(s, m).blocks[b].frozen
  {
    hide BlockOk;
  }

  lemma StepKeepsFrozen(s: State, t: nat, b: nat)
    requires Inv(s) && t < |s.threads| && ThreadOk(s, t) && FateOk(s, t)
    requires b < |s.blocks| && BlockOk(s, b) && s.blocks[b].frozen && s.threads[t].pc != Reset(b)
    ensures b < |Step(s, t).blocks| && Step(s, t).blocks[b].events == s.blocks[b].events
    ensures Step(s, t).blocks[b].frozen
  {
    hide Inv, FateOk, EndsOk;
    match s.threads[t].pc
    case Freeze(_, _) => assert Step(s, t) == StepFreeze(s, t);
    case Reset(_) => assert Step(s, t) == StepReset(s, t);
    case InsertTry(_, _) => assert Step(s, t) == StepTry(s, t);
    case InsertSwap(_, _) => assert Step(s, t) == StepInsertSwap(s, t);
    case FlushSwap(_, _) => assert Step(s, t) == StepFlushSwap(s, t);
    case _ =>
  }

  /** An insert into a frozen block fails and starts over; it returns only by appending. */
  lemma FrozenInsertRetries(s: State, t: nat)
    requires Reachable(s) && t < |s.threads| && s.threads[t].pc.InsertTry?
    ensures Ready(s, t)
    ensures var s' := Apply(s, Go(t));
            var b := s.blocks[s.threads[t].pc.seen];
            && (b.frozen ==> s'.blocks == s.blocks && s'.threads[t].fate.spot.NotYet?
                             && (s' == s || s'.threads[t].pc.InsertGet? || s'.threads[t].pc.InsertSwap?))
            && (s'.threads[t].pc.Finished? || s'.threads[t].pc.Reset? ==>
                  s'.blocks[s.threads[t].pc.seen].events == b.events + [t])
  {
    ReachableInv(s);
    assert ThreadOk(s, t) && FateOk(s, t);
  }

  /** With a token, an event inserted before its block was frozen is in a block that is current
      or being finalized until the reset, and by then a finalizer has frozen it. */
  lemma SafeEventsAreSealed(s: State, t: nat)
    requires Reachable(s) && s.token && t < |s.threads| && s.threads[t].fate.safe
    ensures match s.threads[t].fate.spot
            case NotYet => false
            case Dropped => s.threads[t].fate.sealed.Some?
            case InBlock(b) => b < |s.blocks| && t in s.blocks[b].events
                               && (s.blocks[b].place.Current? || s.blocks[b].place.Finalizing?)
  {
    ReachableInv(s);
    assert FateOk(s, t);
  }

  /** Gone without a finalizer ever having frozen it: dropped by a reset, or in a block that the
      pool has let go. */
  predicate LostUnfrozen(s: State, t: nat)
    requires t < |s.threads|
  {
    var f := s.threads[t].fate;
    || (f.spot.Dropped? && f.sealed.None?)
    || (f.spot.InBlock? && f.spot.block < |s.blocks| && s.blocks[f.spot.block].place.Evicted?)
  }

  /** The move that loses event t so: the eviction of its pooled block, the reset of its block
      before any freeze, or its own insert into a block already evicted. */
  predicate Loses(s: State, m: Move, t: nat)
    requires t < |s.threads|
  {
    var spot := s.threads[t].fate.spot;
    || (m.Evict? && m.block < |s.blocks| && s.blocks[m.block].place.Pooled? && spot == InBlock(m.block))
    || (m.Go? && Ready(s, m.thread) && s.threads[m.thread].pc.Reset? && spot == InBlock(s.threads[m.thread].pc.block)
        && !s.blocks[s.threads[m.thread].pc.block].frozen)
    || (m == Go(t) && Ready(s, t) && s.threads[t].pc.InsertTry? && s.blocks[s.threads[t].pc.seen].place.Evicted?)
  }

  lemma LosesExactly(s: State, m: Move, t: nat)
    requires Reachable(s) && t < |s.threads| && !LostUnfrozen(s, t)
    ensures t < |Apply(s, m).threads|
    ensures LostUnfrozen(Apply(s, m), t) <==> Loses(s, m, t)
  {
    ReachableInv(s);
    assert ThreadOk(s, t) && FateOk(s, t);
    if m.Go? && Ready(s, m.thread) {
      assert ThreadOk(s, m.thread) && FateOk(s, m.thread);
      if Owns(m.thread, s.threads[m.thread]).Some? { assert BlockOk(s, Owns(m.thread, s.threads[m.thread]).value.0); }
      if s.threads[m.thread].pc.InsertTry? { assert BlockOk(s, s.threads[m.thread].pc.seen); }
      hide Inv;
      GoLosesExactly(s, m.thread, t);
    } else if m.Answer? && Ready(s, m.thread) && s.threads[m.thread].pc.Sending? {
      AnswerLosesNone(s, m.thread, m.outcome, t);
    } else {
      hide Inv;
      CallsLoseExactly(s, m, t);
    }
  }

  lemma AnswerLosesNone(s: State, i: nat, outcome: Outcome, t: nat)
    requires t < |s.threads| && Ready(s, i) && s.threads[i].pc.Sending? && !LostUnfrozen(s, t)
    ensures !LostUnfrozen(StepAnswer(s, i, outcome), t)
  {
  }

  lemma CallsLoseExactly(s: State, m: Move, t: nat)
    requires t < |s.threads| && !LostUnfrozen(s, t) && FateOk(s, t)
    requires !(m.Go? && Ready(s, m.thread)) && !(m.Answer? && Ready(s, m.thread) && s.threads[m.thread].pc.Sending?)
    requires m != Go(t) || Ready(s, t)
    ensures t < |Apply(s, m).threads|
    ensures LostUnfrozen(Apply(s, m), t) <==> Loses(s, m, t)
  {
  }

  lemma GoLosesExactly(s: State, i: nat, t: nat)
    requires At(s, i) && t < |s.threads| && !LostUnfrozen(s, t) && FateOk(s, t)
    requires s.threads[i].pc.InsertTry? ==> BlockOk(s, s.threads[i].pc.seen)
    ensures t < |Step(s, i).threads|
    ensures LostUnfrozen(Step(s, i), t) <==> Loses(s, Go(i), t)
  {
    match s.threads[i].pc
    case Reset(_) => ResetLosesExactly(s, i, t);
    case InsertTry(_, _) => TryLosesExactly(s, i, t);
    case _ => OthersLoseNone(s, i, t);
  }

  lemma ResetLosesExactly(s: State, i: nat, t: nat)
    requires At(s, i) && t < |s.threads| && !LostUnfrozen(s, t) && FateOk(s, t) && s.threads[i].pc.Reset?
    ensures LostUnfrozen(StepReset(s, i), t) <==> Loses(s, Go(i), t)
  {
    hide Counted, EndsOk, Over, Given, Acks, Sealing;
    assert s.threads[i].pc.block in Owned(s, i);
  }

  lemma TryLosesExactly(s: State, i: nat, t: nat)
    requires t < |s.threads| && i < |s.threads| && ThreadOk(s, i) && !LostUnfrozen(s, t) && FateOk(s, t)
    requires s.threads[i].pc.InsertTry? && BlockOk(s, s.threads[i].pc.seen)
    ensures LostUnfrozen(StepTry(s, i), t) <==> Loses(s, Go(i), t)
  {
    hide Counted, EndsOk, Over, Given, Acks, Sealing;
  }

  lemma OthersLoseNone(s: State, i: nat, t: nat)
    requires t < |s.threads| && Ready(s, i) && !LostUnfrozen(s, t) && FateOk(s, t)
    requires !s.threads[i].pc.Reset? && !s.threads[i].pc.InsertTry?
    ensures t < |Step(s, i).threads| && !LostUnfrozen(Step(s, i), t)
  {
    hide Step;
    OthersKeepSpot(s, i, t);
    if s.threads[t].fate.spot.InBlock? {
      OthersEvictNone(s, i, s.threads[t].fate.spot.block);
    }
  }

  lemma OthersKeepSpot(s: State, i: nat, t: nat)
    requires t < |s.threads| && Ready(s, i) && !s.threads[i].pc.Reset? && !s.threads[i].pc.InsertTry?
    ensures t < |Step(s, i).threads| && Step(s, i).threads[t].fate.spot == s.threads[t].fate.spot
    ensures s.threads[t].fate.sealed.Some? ==> Step(s, i).threads[t].fate.sealed.Some?
  {
  }

  lemma OthersEvictNone(s: State, i: nat, b: nat)
    requires b < |s.blocks| && Ready(s, i) && !s.threads[i].pc.Reset? && !s.threads[i].pc.InsertTry?
    ensures b < |Step(s, i).blocks| && (Step(s, i).blocks[b].place.Evicted? ==> s.blocks[b].place.Evicted?)
  {
  }

  /** With a token only an event appended through a stale address can be lost that way, and it is
      in no batch. */
  lemma OnlyStaleEventsAreLost(s: State, t: nat)
    requires Reachable(s) && s.token && t < |s.threads| && LostUnfrozen(s, t)
    ensures !s.threads[t].fate.safe && !WasHanded(s, t)
  {
    ReachableTallies(s, t);
    HandedMeansGiven(s, t);
    assert FateOk(s, t);
    if s.threads[t].fate.spot.InBlock? { assert BlockOk(s, s.threads[t].fate.spot.block); }
  }

  // ---- and it does happen ----

  /** Thread 0 has loaded block 0; thread 1 has since flushed it and put it in the pool. */
  function StaleLoad(): State {
    State(true, [CLEAN.(place := Pooled), CLEAN], 1,
          [Thread(InsertTry(0, None), FRESH, []), Thread(Finished, FRESH, [])], [])
  }

  lemma StaleIsReachable()
    ensures Run(Apply, Init(true), [CallInsert, Go(0), CallFlush, Get(1, None)] + [Go(1), Go(1), Go(1), Go(1)] + [Go(1)])
            == StaleLoad()
  {
    var s0 := Init(true);
    var s4 := Apply(Apply(Apply(Apply(s0, CallInsert), Go(0)), CallFlush), Get(1, None));
    assert s4.threads == [Thread(InsertTry(0, None), FRESH, []), Thread(FlushLoad(1), FRESH, [])];
    assert s4.blocks == [CLEAN, CLEAN.(place := Private(1))];
    RunFour(Apply, s0, CallInsert, Go(0), CallFlush, Get(1, None));
    var s5 := Apply(s4, Go(1));
    assert s5.threads == [Thread(InsertTry(0, None), FRESH, []), Thread(FlushSwap(0, 1), FRESH, [])];
    var s6 := Apply(s5, Go(1));
    assert s6.threads == [Thread(InsertTry(0, None), FRESH, []), Thread(Freeze(0, false), FRESH, [])];
    assert s6.blocks == [CLEAN.(place := Finalizing(1)), CLEAN];
    StaleRest(s6);
    RunFour(Apply, s4, Go(1), Go(1), Go(1), Go(1));
    RunAppend(Apply, s0, [CallInsert, Go(0), CallFlush, Get(1, None)], [Go(1), Go(1), Go(1), Go(1)]);
    RunThen(Apply, s0, [CallInsert, Go(0), CallFlush, Get(1, None)] + [Go(1), Go(1), Go(1), Go(1)], Go(1));
  }

  lemma StaleRest(s: State)
    requires s == State(true, [CLEAN.(place := Finalizing(1)), CLEAN], 1,
                        [Thread(InsertTry(0, None), FRESH, []), Thread(Freeze(0, false), FRESH, [])], [])
    ensures Apply(Apply(Apply(s, Go(1)), Go(1)), Go(1)) == StaleLoad()
  {
    var s1 := Apply(s, Go(1));
    assert s1.threads == [Thread(InsertTry(0, None), FRESH, []), Thread(Reset(0), FRESH, [])];
    var s2 := Apply(s1, Go(1));
    assert s2.threads == [Thread(InsertTry(0, None), FRESH, []), Thread(Return(0), FRESH, [])];
    assert s2.blocks == [CLEAN.(place := Finalizing(1)), CLEAN];
  }

  /** An Insert that returns although its event, in a pooled block, is then lost. */
  lemma LostEventHappens()
    ensures exists s :: Reachable(s) && s.token && |s.threads| == 2 && s.threads[0].pc.Finished?
                        && s.threads[0].fate.spot == InBlock(0) && |s.blocks| == 2 && s.blocks[0].place.Evicted?
  {
    StaleIsReachable();
    var before := [CallInsert, Go(0), CallFlush, Get(1, None)] + [Go(1), Go(1), Go(1), Go(1)] + [Go(1)];
    var s := StaleLoad();
    var s1 := Apply(s, Go(0));
    assert s1.blocks[0].place.Pooled?;
    var s2 := Apply(s1, Evict(0));
    RunTwo(Apply, s, Go(0), Evict(0));
    RunAppend(Apply, Init(true), before, [Go(0), Evict(0)]);
    assert s2 == Run(Apply, Init(s2.token), before + [Go(0), Evict(0)]);
    assert Reachable(s2);
  }

  const INSERTED := Fate(InBlock(0), true, None, 0, 0)
  const SEALED := Fate(InBlock(0), true, Some(1), 0, 0)
  const FILLED := Block([0], false, false, None, Current)

  /** Thread 0 has inserted into block 0; thread 1 is about to do what pc says with it. */
  function Inserted(filled: Block, other: seq<Block>, fate: Fate, pc: Pc, ends: seq<Outcome>): State {
    State(true, [filled] + other, |other|, [Thread(Finished, fate, []), Thread(pc, FRESH, ends)], [])
  }

  lemma FlushBegins()
    ensures Run(Apply, Init(true), [CallInsert, Go(0), Go(0), CallFlush]) == Inserted(FILLED, [], INSERTED, FlushGet, [])
  {
    var s0 := Init(true);
    var s1 := Apply(s0, CallInsert);
    assert s1.threads == [Thread(InsertLoad(None), FRESH, [])];
    var s2 := Apply(s1, Go(0));
    assert s2.threads == [Thread(InsertTry(0, None), FRESH, [])];
    var s3 := Apply(s2, Go(0));
    assert s3.blocks[0].events == [0];
    assert s3.threads == [Thread(Finished, INSERTED, [])] && s3.blocks == [FILLED];
    RunFour(Apply, s0, CallInsert, Go(0), Go(0), CallFlush);
    assert Apply(s3, CallFlush).blocks == [FILLED] + [];
  }

  lemma FlushSwaps()
    ensures Run(Apply, Inserted(FILLED, [], INSERTED, FlushGet, []), [Get(1, None), Go(1), Go(1), Go(1)])
            == Inserted(FILLED.(frozen := true, holder := Some(1), place := Finalizing(1)), [CLEAN], SEALED, Sending(0, false), [])
  {
    var s := Inserted(FILLED, [], INSERTED, FlushGet, []);
    var s1 := Apply(s, Get(1, None));
    assert s1.blocks == [FILLED, CLEAN.(place := Private(1))];
    assert s1.threads[1] == Thread(FlushLoad(1), FRESH, []);
    var s2 := Apply(s1, Go(1));
    assert s2.threads == [s.threads[0], Thread(FlushSwap(0, 1), FRESH, [])];
    var s3 := Apply(s2, Go(1));
    assert s3.blocks == [FILLED.(place := Finalizing(1)), CLEAN];
    assert s3.threads == [s.threads[0], Thread(Freeze(0, false), FRESH, [])];
    FreezeGoes(s3, FILLED.(place := Finalizing(1)), INSERTED, false, []);
    RunFour(Apply, s, Get(1, None), Go(1), Go(1), Go(1));
  }

  lemma FreezeGoes(s: State, b: Block, fate: Fate, again: bool, ends: seq<Outcome>)
    requires b.events == [0] && b.holder.None? && !b.flushed && s == Inserted(b, [CLEAN], fate, Freeze(0, again), ends)
    ensures Apply(s, Go(1))
            == Inserted(b.(frozen := true, holder := Some(1)), [CLEAN], fate.(sealed := Some(1)), Sending(0, again), ends)
  {
    var s' := Apply(s, Go(1));
    assert s'.threads[0].fate == fate.(sealed := Some(1)) && s'.threads[1] == Thread(Sending(0, again), FRESH, ends);
    assert s'.threads == [Thread(Finished, fate.(sealed := Some(1)), []), Thread(Sending(0, again), FRESH, ends)];
    assert s'.blocks == [b.(frozen := true, holder := Some(1))] + [CLEAN];
  }

  lemma EarlyGoes(s: State, b: Block, fate: Fate, again: bool, ends: seq<Outcome>)
    requires b.events == [0] && s == Inserted(b, [CLEAN], fate, Sending(0, again), ends)
    ensures Apply(s, Answer(1, Early))
            == Inserted(b.(holder := None, flushed := false), [CLEAN], fate,
                        if again then Reset(0) else Freeze(0, true), ends + [Early])
  {
    var s' := Apply(s, Answer(1, Early));
    assert s'.threads[0].fate == fate;
    assert s'.threads == [Thread(Finished, fate, []), Thread(if again then Reset(0) else Freeze(0, true), FRESH, ends + [Early])];
    assert s'.blocks == [b.(holder := None, flushed := false)] + [CLEAN];
  }

  lemma ResetGoes(s: State, b: Block)
    requires b.events == [0] && b.holder.None? && s == Inserted(b, [CLEAN], SEALED, Reset(0), [Early, Early])
    ensures var s' := Apply(s, Go(1));
            && s'.threads == [Thread(Finished, SEALED.(spot := Dropped), []), Thread(Return(0), FRESH, [Early, Early])]
            && s'.token && s'.handed == []
  {
    var s' := Apply(s, Go(1));
    assert s'.threads[0].fate == SEALED.(spot := Dropped) && s'.threads[1].pc == Return(0);
  }

  lemma TwiceEarly(s: State, held: Block)
    requires held == Block([0], true, false, Some(1), Finalizing(1))
             && s == Inserted(held, [CLEAN], SEALED, Sending(0, false), [])
    ensures var s' := Run(Apply, s, [Answer(1, Early), Go(1), Answer(1, Early), Go(1)]);
            && s'.threads == [Thread(Finished, SEALED.(spot := Dropped), []), Thread(Return(0), FRESH, [Early, Early])]
            && s'.token && s'.handed == []
  {
    hide Apply, Inserted;
    EarlyGoes(s, held, SEALED, false, []);
    assert [] + [Early] == [Early];
    var s1 := Apply(s, Answer(1, Early));
    FreezeGoes(s1, held.(holder := None), SEALED, true, [Early]);
    var s2 := Apply(s1, Go(1));
    EarlyGoes(s2, held, SEALED, true, [Early]);
    var s3 := Apply(s2, Answer(1, Early));
    assert [Early] + [Early] == [Early, Early];
    ResetGoes(s3, held.(holder := None));
    RunFour(Apply, s, Answer(1, Early), Go(1), Answer(1, Early), Go(1));
  }

  /** A safe event that is lost although a finalizer froze it: both attempts end before doInsert. */
  lemma DoubleEarlyHappens()
    ensures exists s :: Reachable(s) && s.token && |s.threads| == 2 && s.threads[0].fate.spot.Dropped?
                        && s.threads[0].fate.safe && s.threads[1].ends == [Early, Early] && s.handed == []
  {
    hide Apply, Inserted;
    var begin, swap := [CallInsert, Go(0), Go(0), CallFlush], [Get(1, None), Go(1), Go(1), Go(1)];
    var early := [Answer(1, Early), Go(1), Answer(1, Early), Go(1)];
    var held := FILLED.(frozen := true, holder := Some(1), place := Finalizing(1));
    FlushBegins();
    FlushSwaps();
    RunAppend(Apply, Init(true), begin, swap);
    TwiceEarly(Inserted(held, [CLEAN], SEALED, Sending(0, false), []), held);
    RunAppend(Apply, Init(true), begin + swap, early);
    var s := Run(Apply, Init(true), begin + swap + early);
    assert s == Run(Apply, Init(s.token), begin + swap + early);
    assert Reachable(s);
  }
}
