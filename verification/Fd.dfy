// The reference-counted descriptor of cmd/run/fd/fd.go, one step per atomic operation.
//
// A State is the descriptor's three words plus what every goroutine is in the middle of.
// A Move names the goroutine that runs next and the operation it performs; a schedule is
// any sequence of moves, and a move that is not possible leaves the state alone, so every
// interleaving is the run of some schedule.
module Fd {
  import opened Tally
  import opened Guards
  import opened Schedules

  const WORD := 0x1_0000_0000
  const FLAG_CLOSED := 0x8000_0000
  const MAX_REFS := 0x100_0000
  const FD_CLOSED := 0xFFFF_FFFF
  const MINUS_ONE := 0xFFFF_FFFF

  /** atomic.AddUint32 */
  function AddUint32(word: nat, delta: nat): (r: nat) {
    (word + delta) % WORD
  }

  /** The flag is the top bit of a 32-bit word. */
  predicate Flagged(refs: nat) {
    refs >= FLAG_CLOSED
  }

  /** The word without its flag. */
  function Left(refs: nat): nat {
    if Flagged(refs) then refs - FLAG_CLOSED else refs
  }

  // Where a goroutine stands between two atomic operations.
  datatype Pc =
    | Idle
    | Undoing                   // a failing IncRef that still has to take its increment back
    | Releasing                 // decRef saw one reference left and is about to semrelease
    | Swapping(internal: bool)  // decRef saw none left and is about to swap the descriptor
    | Casing(seen: nat)         // ClosingIncRef between its load and its compare-and-swap

  // What a goroutine did with a successful ClosingIncRef.
  datatype Closer = NotCloser | Marked | Blocked | Locked

  datatype Thread = Thread(pc: Pc, held: nat, closer: Closer)

  datatype Panic = NoPanic | TooManyRefs | Underflow | LockUnmarked | FdMisuse | ClosedTwice

  // closes counts the ClosingIncRef calls that returned true; refused remembers whether an
  // IncRef has been refused; undone and ended, whether the undo of a refused IncRef, or an
  // ordinary decrement, has swapped the descriptor.
  datatype State = State(fd: nat, refs: nat, sema: nat, threads: seq<Thread>, panic: Panic,
                         closes: nat, refused: bool, undone: bool, ended: bool)

  datatype Action =
    | IncRef | Undo | DecRef | DecClosing | Release | Swap
    | LoadClosing | CasClosing | Lock | Acquire | ReadFd | Handoff(to: nat)

  datatype Move = Move(thread: nat, action: Action)

  function NewFD(fd: nat, others: nat): State {
    State(fd, 1, 0, [Thread(Idle, 1, NotCloser)] + seq(others, _ => Thread(Idle, 0, NotCloser)),
          NoPanic, 0, false, false, false)
  }

  /** The moves the code can make. References are balanced: only a holder drops one. */
  predicate Enabled(s: State, m: Move) {
    && s.panic.NoPanic?
    && m.thread < |s.threads|
    && var t := s.threads[m.thread];
       match m.action
       case IncRef => t.pc.Idle? && !t.closer.Blocked?
       case Undo => t.pc.Undoing?
       case DecRef => t.pc.Idle? && !t.closer.Blocked? && t.held > 0
       case DecClosing => t.pc.Idle? && (t.closer.Marked? || t.closer.Locked?)
       case Release => t.pc.Releasing?
       case Swap => t.pc.Swapping?
       case LoadClosing => t.pc.Idle? && !t.closer.Blocked?
       case CasClosing => t.pc.Casing?
       case Lock => t.pc.Idle? && t.closer.Marked?
       case Acquire => t.closer.Blocked? && s.sema > 0
       case ReadFd => t.pc.Idle? && (t.held > 0 || t.closer.Marked? || t.closer.Locked?)
       case Handoff(to) => t.pc.Idle? && t.held > 0 && to < |s.threads| && to != m.thread
  }

  function Put(s: State, i: nat, t: Thread): State
    requires i < |s.threads|
  {
    s.(threads := s.threads[i := t])
  }

  /** decRef: subtract one, then release, swap or return. */
  function SubRef(s: State, i: nat, t: Thread, internal: bool): State
    requires i < |s.threads|
  {
    var refs := AddUint32(s.refs, MINUS_ONE);
    var s' := s.(refs := refs);
    if Left(refs) >= MAX_REFS then Put(s', i, t).(panic := Underflow)
    else if Flagged(refs) && Left(refs) == 1 then Put(s', i, t.(pc := Releasing))
    else if Flagged(refs) && Left(refs) == 0 then Put(s', i, t.(pc := Swapping(internal)))
    else Put(s', i, t)
  }

  function StepIncRef(s: State, i: nat): State
    requires i < |s.threads|
  {
    var t := s.threads[i];
    var refs := AddUint32(s.refs, 1);
    var s' := s.(refs := refs);
    if Flagged(refs) then Put(s', i, t.(pc := Undoing)).(refused := true)
    else if refs >= MAX_REFS then Put(s', i, t.(held := t.held + 1)).(panic := TooManyRefs)
    else Put(s', i, t.(held := t.held + 1))
  }

  function StepSwap(s: State, i: nat): State
    requires i < |s.threads| && s.threads[i].pc.Swapping?
  {
    var t := s.threads[i];
    var s' := Put(s, i, t.(pc := Idle)).(fd := FD_CLOSED, undone := s.undone || t.pc.internal,
                                         ended := s.ended || !t.pc.internal);
    if s.fd == FD_CLOSED && !t.pc.internal then s'.(panic := ClosedTwice) else s'
  }

  function StepCas(s: State, i: nat): State
    requires i < |s.threads| && s.threads[i].pc.Casing?
  {
    var t := s.threads[i];
    if s.refs == t.pc.seen then
      Put(s, i, t.(pc := Idle, closer := Marked)).(refs := FLAG_CLOSED + t.pc.seen + 1, closes := s.closes + 1)
    else Put(s, i, t.(pc := Idle))
  }

  function StepLock(s: State, i: nat): State
    requires i < |s.threads|
  {
    var t := s.threads[i];
    if !Flagged(s.refs) then s.(panic := LockUnmarked)
    else Put(s, i, t.(closer := if Left(s.refs) > 1 then Blocked else Locked))
  }

  function StepHandoff(s: State, i: nat, to: nat): State
    requires i < |s.threads| && to < |s.threads| && s.threads[i].held > 0
  {
    var s' := Put(s, i, s.threads[i].(held := s.threads[i].held - 1));
    Put(s', to, s'.threads[to].(held := s'.threads[to].held + 1))
  }

  function Apply(s: State, m: Move): State {
    if !Enabled(s, m) then s else
    var i, t := m.thread, s.threads[m.thread];
    match m.action
    case IncRef => StepIncRef(s, i)
    case Undo => SubRef(s, i, t.(pc := Idle), true)
    case DecRef => SubRef(s, i, t.(held := t.held - 1), false)
    case DecClosing => SubRef(s, i, t.(closer := NotCloser), false)
    case Release => Put(s, i, t.(pc := Idle)).(sema := s.sema + 1)
    case Swap => StepSwap(s, i)
    case LoadClosing => if Flagged(s.refs) then s else Put(s, i, t.(pc := Casing(s.refs)))
    case CasClosing => StepCas(s, i)
    case Lock => StepLock(s, i)
    case Acquire => Put(s, i, t.(closer := Locked)).(sema := s.sema - 1)
    case ReadFd => if s.fd == FD_CLOSED then s.(panic := FdMisuse) else s
    case Handoff(to) => StepHandoff(s, i, to)
  }

  // ---- what a state accounts for ----

  function HeldBy(t: Thread): int { t.held }
  function UndoBy(t: Thread): int { if t.pc.Undoing? then 1 else 0 }
  function CloseBy(t: Thread): int { if t.closer.NotCloser? then 0 else 1 }
  function ReleaseBy(t: Thread): int { if t.pc.Releasing? then 1 else 0 }
  function InnerBy(t: Thread): int { if t.pc == Swapping(true) then 1 else 0 }
  function OuterBy(t: Thread): int { if t.pc == Swapping(false) then 1 else 0 }
  function BlockedBy(t: Thread): int { if t.closer.Blocked? then 1 else 0 }
  function LockedBy(t: Thread): int { if t.closer.Locked? then 1 else 0 }

  /** References held through a successful IncRef. */
  function Held(s: State): int { Sum(HeldBy, s.threads) }
  /** Failing IncRef calls that have not yet taken their increment back. */
  function Undos(s: State): int { Sum(UndoBy, s.threads) }
  /** References held through a successful ClosingIncRef. */
  function Closers(s: State): int { Sum(CloseBy, s.threads) }
  /** Goroutines about to semrelease. */
  function Releases(s: State): int { Sum(ReleaseBy, s.threads) }
  /** Goroutines about to swap the descriptor after undoing an IncRef. */
  function Inners(s: State): int { Sum(InnerBy, s.threads) }
  /** Goroutines about to swap the descriptor after an ordinary decrement. */
  function Outers(s: State): int { Sum(OuterBy, s.threads) }
  /** Goroutines waiting in semacquire. */
  function Waiters(s: State): int { Sum(BlockedBy, s.threads) }
  /** Goroutines whose Lock has returned. */
  function Lockers(s: State): int { Sum(LockedBy, s.threads) }

  ghost predicate NonNegative(s: State) {
    && 0 <= Held(s) && 0 <= Undos(s) <= |s.threads| && 0 <= Closers(s) && 0 <= Releases(s)
    && 0 <= Inners(s) && 0 <= Outers(s) && 0 <= Waiters(s) && 0 <= Lockers(s)
    && Waiters(s) + Lockers(s) <= Closers(s)
  }

  /** The word is exactly the references it stands for, plus the flag. */
  ghost predicate Accounted(s: State) {
    && |s.threads| < MAX_REFS && Held(s) <= MAX_REFS && Closers(s) <= s.closes <= 1
    && s.refs == (if s.closes == 1 then FLAG_CLOSED else 0) + Held(s) + Undos(s) + Closers(s)
    && (Held(s) == MAX_REFS ==> !s.panic.NoPanic?)
  }

  /** Before the flag is set nothing about closing has begun. */
  ghost predicate OpenIsQuiet(s: State) {
    s.closes == 0 ==>
      s.sema == 0 && Releases(s) == 0 && Inners(s) == 0 && Outers(s) == 0 && Undos(s) == 0 && s.fd != FD_CLOSED
  }

  /** A compare-and-swap was prepared from a word without the flag. */
  ghost predicate CasesSane(s: State) {
    forall i :: 0 <= i < |s.threads| && s.threads[i].pc.Casing? ==> s.threads[i].pc.seen < MAX_REFS
  }

  /** A wakeup, sent or about to be sent, means the closer is alone. */
  ghost predicate WakeupMeansAlone(s: State) {
    Closers(s) == 1 && (s.sema > 0 || Releases(s) > 0 || Lockers(s) > 0) ==> Held(s) == 0
  }

  ghost predicate SwapMeansOver(s: State) {
    s.fd == FD_CLOSED || Inners(s) > 0 || Outers(s) > 0 ==> s.closes == 1 && Closers(s) == 0 && Held(s) == 0
  }

  ghost predicate WakeupNotLost(s: State) {
    Waiters(s) > 0 ==> Left(s.refs) > 1 || Releases(s) > 0 || s.sema > 0
  }

  ghost predicate SwapHistory(s: State) {
    && (s.fd == FD_CLOSED <==> s.undone || s.ended)
    && Outers(s) <= 1 && (Outers(s) == 1 ==> !s.ended)
    && (!s.refused ==> Undos(s) == 0 && Inners(s) == 0 && !s.undone)
  }

  ghost predicate PanicsKnown(s: State) {
    && !s.panic.FdMisuse? && !s.panic.LockUnmarked?
    && (s.panic.Underflow? ==> Left(s.refs) >= MAX_REFS)
    && (s.panic.ClosedTwice? ==> s.undone)
  }

  ghost predicate Inv(s: State) {
    && NonNegative(s) && Accounted(s) && OpenIsQuiet(s) && CasesSane(s) && WakeupMeansAlone(s)
    && SwapMeansOver(s) && WakeupNotLost(s) && SwapHistory(s) && PanicsKnown(s)
  }

  // ---- every step keeps the invariant ----

  /** How replacing one goroutine's record moves the totals. */
  lemma Recount(s: State, i: nat, t: Thread)
    requires i < |s.threads| && NonNegative(s)
    ensures Held(Put(s, i, t)) == Held(s) - HeldBy(s.threads[i]) + HeldBy(t)
    ensures Undos(Put(s, i, t)) == Undos(s) - UndoBy(s.threads[i]) + UndoBy(t)
    ensures Closers(Put(s, i, t)) == Closers(s) - CloseBy(s.threads[i]) + CloseBy(t)
    ensures Releases(Put(s, i, t)) == Releases(s) - ReleaseBy(s.threads[i]) + ReleaseBy(t)
    ensures Inners(Put(s, i, t)) == Inners(s) - InnerBy(s.threads[i]) + InnerBy(t)
    ensures Outers(Put(s, i, t)) == Outers(s) - OuterBy(s.threads[i]) + OuterBy(t)
    ensures Waiters(Put(s, i, t)) == Waiters(s) - BlockedBy(s.threads[i]) + BlockedBy(t)
    ensures Lockers(Put(s, i, t)) == Lockers(s) - LockedBy(s.threads[i]) + LockedBy(t)
    ensures NonNegative(Put(s, i, t))
  {
    SumUpdate(HeldBy, s.threads, i, t);
    SumUpdate(UndoBy, s.threads, i, t);
    SumUpdate(CloseBy, s.threads, i, t);
    SumUpdate(ReleaseBy, s.threads, i, t);
    SumUpdate(InnerBy, s.threads, i, t);
    SumUpdate(OuterBy, s.threads, i, t);
    SumUpdate(BlockedBy, s.threads, i, t);
    SumUpdate(LockedBy, s.threads, i, t);
    Totals(Put(s, i, t));
  }

  /** The totals of any family of goroutines. */
  lemma Totals(s: State)
    ensures NonNegative(s)
  {
    SumNonNegative(HeldBy, s.threads);
    SumBounds(UndoBy, s.threads, 1);
    SumNonNegative(ReleaseBy, s.threads);
    SumNonNegative(InnerBy, s.threads);
    SumNonNegative(OuterBy, s.threads);
    LockersAreClosers(s.threads);
  }

  lemma {:induction false} LockersAreClosers(ts: seq<Thread>)
    ensures 0 <= Sum(BlockedBy, ts) && 0 <= Sum(LockedBy, ts)
    ensures Sum(BlockedBy, ts) + Sum(LockedBy, ts) <= Sum(CloseBy, ts)
  {
    if |ts| > 0 {
      LockersAreClosers(ts[..|ts| - 1]);
    }
  }

  /** A goroutine's own part is within each total. */
  lemma Own(s: State, i: nat)
    requires i < |s.threads|
    ensures HeldBy(s.threads[i]) <= Held(s) && UndoBy(s.threads[i]) <= Undos(s) && CloseBy(s.threads[i]) <= Closers(s)
    ensures ReleaseBy(s.threads[i]) <= Releases(s) && InnerBy(s.threads[i]) <= Inners(s)
    ensures OuterBy(s.threads[i]) <= Outers(s) && BlockedBy(s.threads[i]) <= Waiters(s)
    ensures LockedBy(s.threads[i]) <= Lockers(s)
  {
    SumAtLeast(HeldBy, s.threads, i);
    SumAtLeast(UndoBy, s.threads, i);
    SumAtLeast(CloseBy, s.threads, i);
    SumAtLeast(ReleaseBy, s.threads, i);
    SumAtLeast(InnerBy, s.threads, i);
    SumAtLeast(OuterBy, s.threads, i);
    SumAtLeast(BlockedBy, s.threads, i);
    SumAtLeast(LockedBy, s.threads, i);
  }

  lemma IncRefKeepsInv(s: State, i: nat)
    requires Inv(s) && Enabled(s, Move(i, IncRef))
    ensures Inv(StepIncRef(s, i))
  {
    hide Sum;
    Own(s, i);
    if s.closes == 1 { RefusedKeepsInv(s, i); } else { TakenKeepsInv(s, i); }
  }

  lemma RefusedKeepsInv(s: State, i: nat)
    requires Inv(s) && Enabled(s, Move(i, IncRef)) && s.closes == 1
    ensures Inv(StepIncRef(s, i))
  {
    hide Sum;
    Own(s, i);
    WordParts(true, Tokens(s));
    WordParts(true, Tokens(s) + 1);
    Recount(s, i, s.threads[i].(pc := Undoing));
  }

  lemma TakenKeepsInv(s: State, i: nat)
    requires Inv(s) && Enabled(s, Move(i, IncRef)) && s.closes != 1
    ensures Inv(StepIncRef(s, i))
  {
    hide Sum;
    Own(s, i);
    WordParts(false, Tokens(s));
    WordParts(false, Tokens(s) + 1);
    Recount(s, i, s.threads[i].(held := s.threads[i].held + 1));
  }

  /** Reading back the two parts of a word. */
  lemma WordParts(flag: bool, n: nat)
    requires n < FLAG_CLOSED
    ensures var word := (if flag then FLAG_CLOSED else 0) + n;
            && Flagged(word) == flag && Left(word) == n
            && (n > 0 ==> AddUint32(word, MINUS_ONE) == word - 1)
  {
  }

  /** The goroutine's record t no longer counts the reference it drops. */
  ghost predicate Dropped(s: State, i: nat, t: Thread) {
    && i < |s.threads| && s.panic.NoPanic? && t.pc.Idle?
    && var o := s.threads[i];
       && (o.pc.Idle? || o.pc.Undoing?)
       && HeldBy(t) + UndoBy(t) + CloseBy(t) == HeldBy(o) + UndoBy(o) + CloseBy(o) - 1
       && BlockedBy(t) == BlockedBy(o) && LockedBy(t) <= LockedBy(o)
       && HeldBy(t) <= HeldBy(o) && CloseBy(t) <= CloseBy(o)
  }

  function Tokens(s: State): int { Held(s) + Undos(s) + Closers(s) }

  /** The decrement in decRef when more than one reference is left, or the flag is not set. */
  lemma SubLeavesSome(s: State, i: nat, t: Thread, internal: bool)
    requires Inv(s) && Dropped(s, i, t)
    requires s.closes == 0 || Tokens(s) > 2
    ensures Inv(SubRef(s, i, t, internal))
  {
    hide Sum;
    Own(s, i);
    WordParts(s.closes == 1, Tokens(s));
    WordParts(s.closes == 1, Tokens(s) - 1);
    Recount(s, i, t);
  }

  /** ... when it leaves exactly one. */
  lemma SubLeavesOne(s: State, i: nat, t: Thread, internal: bool)
    requires Inv(s) && Dropped(s, i, t)
    requires s.closes == 1 && Tokens(s) == 2
    ensures Inv(SubRef(s, i, t, internal))
  {
    hide Sum;
    Own(s, i);
    WordParts(true, Tokens(s));
    WordParts(true, Tokens(s) - 1);
    Recount(s, i, t.(pc := Releasing));
  }

  /** ... when it leaves none. */
  lemma SubLeavesNone(s: State, i: nat, t: Thread, internal: bool)
    requires Inv(s) && Dropped(s, i, t)
    requires s.closes == 1 && Tokens(s) == 1
    requires internal <==> s.threads[i].pc.Undoing?
    ensures Inv(SubRef(s, i, t, internal))
  {
    hide Sum;
    Own(s, i);
    WordParts(true, Tokens(s));
    WordParts(true, Tokens(s) - 1);
    Recount(s, i, t.(pc := Swapping(internal)));
  }

  lemma SubKeepsInv(s: State, i: nat, t: Thread, a: Action)
    requires Inv(s) && Enabled(s, Move(i, a))
    requires || (a.Undo? && t == s.threads[i].(pc := Idle))
             || (a.DecRef? && t == s.threads[i].(held := s.threads[i].held - 1))
             || (a.DecClosing? && t == s.threads[i].(closer := NotCloser))
    ensures Inv(SubRef(s, i, t, a.Undo?))
  {
    Own(s, i);
    if s.closes == 0 || Tokens(s) > 2 {
      SubLeavesSome(s, i, t, a.Undo?);
    } else if Tokens(s) == 2 {
      SubLeavesOne(s, i, t, a.Undo?);
    } else {
      SubLeavesNone(s, i, t, a.Undo?);
    }
  }

  lemma SwapKeepsInv(s: State, i: nat)
    requires Inv(s) && Enabled(s, Move(i, Swap))
    ensures Inv(StepSwap(s, i))
  {
    Own(s, i);
    Recount(s, i, s.threads[i].(pc := Idle));
  }

  lemma ClosingKeepsInv(s: State, i: nat, a: Action)
    requires Inv(s) && (a.LoadClosing? || a.CasClosing?) && Enabled(s, Move(i, a))
    ensures Inv(Apply(s, Move(i, a)))
  {
    if a.LoadClosing? { LoadKeepsInv(s, i); } else { CasKeepsInv(s, i); }
  }

  lemma LoadKeepsInv(s: State, i: nat)
    requires Inv(s) && Enabled(s, Move(i, LoadClosing))
    ensures Inv(Apply(s, Move(i, LoadClosing)))
  {
    hide Sum;
    Own(s, i);
    Recount(s, i, s.threads[i].(pc := Casing(s.refs)));
  }

  lemma CasKeepsInv(s: State, i: nat)
    requires Inv(s) && Enabled(s, Move(i, CasClosing))
    ensures Inv(StepCas(s, i))
  {
    hide Sum;
    var t := s.threads[i];
    Own(s, i);
    Recount(s, i, if s.refs == t.pc.seen then t.(pc := Idle, closer := Marked) else t.(pc := Idle));
  }

  lemma LockKeepsInv(s: State, i: nat, a: Action)
    requires Inv(s) && (a.Lock? || a.Acquire? || a.Release?) && Enabled(s, Move(i, a))
    ensures Inv(Apply(s, Move(i, a)))
  {
    var t := s.threads[i];
    Own(s, i);
    Recount(s, i, if a.Release? then t.(pc := Idle)
                  else if a.Lock? && Left(s.refs) > 1 then t.(closer := Blocked)
                  else t.(closer := Locked));
  }

  lemma HandoffKeepsInv(s: State, i: nat, to: nat)
    requires Inv(s) && Enabled(s, Move(i, Handoff(to)))
    ensures Inv(StepHandoff(s, i, to))
  {
    hide Sum;
    var s' := Put(s, i, s.threads[i].(held := s.threads[i].held - 1));
    Recount(s, i, s'.threads[i]);
    Recount(s', to, s'.threads[to].(held := s'.threads[to].held + 1));
  }

  lemma StepKeepsInv(s: State, m: Move)
    requires Inv(s)
    ensures Inv(Apply(s, m))
  {
    if Enabled(s, m) {
      var t := s.threads[m.thread];
      match m.action
      case IncRef => IncRefKeepsInv(s, m.thread);
      case Undo => SubKeepsInv(s, m.thread, t.(pc := Idle), m.action);
      case DecRef => SubKeepsInv(s, m.thread, t.(held := t.held - 1), m.action);
      case DecClosing => SubKeepsInv(s, m.thread, t.(closer := NotCloser), m.action);
      case Swap => SwapKeepsInv(s, m.thread);
      case LoadClosing => ClosingKeepsInv(s, m.thread, m.action);
      case CasClosing => ClosingKeepsInv(s, m.thread, m.action);
      case Lock => LockKeepsInv(s, m.thread, m.action);
      case Acquire => LockKeepsInv(s, m.thread, m.action);
      case Release => LockKeepsInv(s, m.thread, m.action);
      case Handoff(to) => HandoffKeepsInv(s, m.thread, to);
      case ReadFd => Own(s, m.thread);
    }
  }

  lemma InitInv(fd: nat, others: nat)
    requires fd < FD_CLOSED && others + 1 < MAX_REFS
    ensures Inv(NewFD(fd, others))
  {
    var s := NewFD(fd, others);
    Totals(s);
    var idle := seq(others, _ => Thread(Idle, 0, NotCloser));
    var first := Thread(Idle, 1, NotCloser);
    IdleTotals(first, idle);
  }

  lemma {:induction false} IdleTotals(first: Thread, idle: seq<Thread>)
    requires first == Thread(Idle, 1, NotCloser) && forall i :: 0 <= i < |idle| ==> idle[i] == Thread(Idle, 0, NotCloser)
    ensures var ts := [first] + idle;
            && Sum(HeldBy, ts) == 1 && Sum(UndoBy, ts) == 0 && Sum(CloseBy, ts) == 0 && Sum(ReleaseBy, ts) == 0
            && Sum(InnerBy, ts) == 0 && Sum(OuterBy, ts) == 0 && Sum(BlockedBy, ts) == 0 && Sum(LockedBy, ts) == 0
  {
    var ts := [first] + idle;
    assert ts[1..] == idle && ts == [] + [first] + idle;
    SumAppend(HeldBy, [], first);
    if |idle| == 0 {
      assert ts == [first];
    } else {
      var n := |idle| - 1;
      assert ts[..n + 1] == [first] + idle[..n];
      IdleTotals(first, idle[..n]);
    }
  }

  // ---- what holds in every interleaving ----

  lemma {:induction false} RunKeepsInv(s: State, schedule: seq<Move>)
    requires Inv(s)
    ensures Inv(Run(Apply, s, schedule))
    decreases |schedule|
  {
    if schedule != [] {
      StepKeepsInv(s, schedule[0]);
      RunKeepsInv(Apply(s, schedule[0]), schedule[1..]);
    }
  }

  /** A decrement touches the word and its own goroutine. */
  lemma SubFrames(s: State, i: nat, t: Thread, internal: bool)
    requires i < |s.threads|
    ensures var s' := SubRef(s, i, t, internal);
            && |s'.threads| == |s.threads| && s'.fd == s.fd && s'.closes == s.closes
            && s'.threads[i].held == t.held && s'.threads[i].closer == t.closer
            && (forall j :: 0 <= j < |s.threads| && j != i ==> s'.threads[j] == s.threads[j])
  {
    hide AddUint32, Flagged, Left;
  }

  lemma StepKeepsFd(s: State, m: Move)
    ensures var s' := Apply(s, m);
            |s'.threads| == |s.threads| && (s'.fd == s.fd || s'.fd == FD_CLOSED) && s'.closes >= s.closes
  {
    hide AddUint32, Flagged, Left, SubRef;
    if Enabled(s, m) {
      var i := m.thread;
      match m.action
      case Undo => SubFrames(s, i, s.threads[i].(pc := Idle), true);
      case DecRef => SubFrames(s, i, s.threads[i].(held := s.threads[i].held - 1), false);
      case DecClosing => SubFrames(s, i, s.threads[i].(closer := NotCloser), false);
      case Handoff(to) => assert |StepHandoff(s, i, to).threads| == |s.threads|;
      case _ =>
    }
  }

  lemma {:induction false} RunKeepsFd(s: State, schedule: seq<Move>)
    ensures var s' := Run(Apply, s, schedule);
            |s'.threads| == |s.threads| && (s'.fd == s.fd || s'.fd == FD_CLOSED)
    decreases |schedule|
  {
    if schedule != [] {
      StepKeepsFd(s, schedule[0]);
      RunKeepsFd(Apply(s, schedule[0]), schedule[1..]);
    }
  }

  /** The state after any schedule of any number of goroutines below 2^24, from NewFD. */
  ghost predicate Reachable(s: State, fd: nat) {
    exists others: nat, schedule: seq<Move> ::
      fd < FD_CLOSED && others + 1 < MAX_REFS && s == Run(Apply, NewFD(fd, others), schedule)
  }

  lemma ReachableInv(s: State, fd: nat)
    requires Reachable(s, fd)
    ensures Inv(s) && (s.fd == fd || s.fd == FD_CLOSED)
  {
    var others: nat, schedule: seq<Move> :|
      fd < FD_CLOSED && others + 1 < MAX_REFS && s == Run(Apply, NewFD(fd, others), schedule);
    InitInv(fd, others);
    RunKeepsInv(NewFD(fd, others), schedule);
    RunKeepsFd(NewFD(fd, others), schedule);
  }

  /** ClosingIncRef succeeds at most once, and marks the word for good. */
  lemma ClosesAtMostOnce(s: State, fd: nat, m: Move)
    requires Reachable(s, fd)
    ensures s.closes <= 1 && (s.closes == 1 <==> Flagged(s.refs))
    ensures Flagged(s.refs) ==> Apply(s, m).closes == 1 && Flagged(Apply(s, m).refs)
  {
    ReachableInv(s, fd);
    var s' := Apply(s, m);
    StepKeepsInv(s, m);
    assert s'.closes >= s.closes by { StepKeepsFd(s, m); }
    WordParts(s.closes == 1, Tokens(s));
    WordParts(s'.closes == 1, Tokens(s'));
  }

  /** Once a Lock has returned, nobody else holds a reference or has closed. */
  lemma LockExcludes(s: State, fd: nat, i: nat, j: nat)
    requires Reachable(s, fd)
    requires i < |s.threads| && s.threads[i].closer.Locked? && j < |s.threads|
    ensures s.threads[j].held == 0 && (j != i ==> s.threads[j].closer.NotCloser?)
  {
    ReachableInv(s, fd);
    Own(s, i);
    Own(s, j);
    if i < j { SumAtLeastTwo(CloseBy, s.threads, i, j); }
    if j < i { SumAtLeastTwo(CloseBy, s.threads, j, i); }
  }

  /** A goroutine with a successful reference reads the descriptor it was created with. */
  lemma HolderSeesDescriptor(s: State, fd: nat, i: nat)
    requires Reachable(s, fd)
    requires i < |s.threads| && (s.threads[i].held > 0 || !s.threads[i].closer.NotCloser?)
    ensures s.fd == fd && Apply(s, Move(i, ReadFd)) == s
  {
    ReachableInv(s, fd);
    Own(s, i);
  }

  /** The low bits are the successful references plus the increments still to be undone. */
  lemma RefsAreConserved(s: State, fd: nat)
    requires Reachable(s, fd)
    ensures Left(s.refs) == Held(s) + Closers(s) + Undos(s)
    ensures !s.panic.FdMisuse? && !s.panic.LockUnmarked?
    ensures s.panic.Underflow? ==> Held(s) + Closers(s) + Undos(s) >= MAX_REFS
  {
    ReachableInv(s, fd);
    WordParts(s.closes == 1, Tokens(s));
  }

  /** A closer asleep in Lock still has somebody to wait for, or a wakeup on its way. */
  lemma WakeupIsNeverLost(s: State, fd: nat, i: nat)
    requires Reachable(s, fd)
    requires i < |s.threads| && s.threads[i].closer.Blocked?
    ensures Left(s.refs) > 1 || Releases(s) > 0 || s.sema > 0
  {
    ReachableInv(s, fd);
    Own(s, i);
  }

  /** ... so once the others have left, Lock returns. */
  lemma LockProceeds(s: State, fd: nat, i: nat)
    requires Reachable(s, fd) && s.panic.NoPanic?
    requires i < |s.threads| && s.threads[i].closer.Blocked?
    requires forall j :: 0 <= j < |s.threads| ==> s.threads[j].held == 0 && s.threads[j].pc.Idle?
    ensures Enabled(s, Move(i, Acquire))
  {
    ReachableInv(s, fd);
    Own(s, i);
    SumOfZeros(HeldBy, s.threads);
    SumOfZeros(UndoBy, s.threads);
    SumOfZeros(ReleaseBy, s.threads);
    WordParts(s.closes == 1, Tokens(s));
  }

  // ---- the "invalid closed file descriptor state" panic ----

  /** The closing decrement panics exactly when the undo of a refused IncRef swapped first. */
  lemma ClosedTwiceExactly(s: State, fd: nat, i: nat)
    requires Reachable(s, fd) && s.panic.NoPanic?
    requires i < |s.threads| && s.threads[i].pc == Swapping(false)
    ensures Apply(s, Move(i, Swap)).panic.ClosedTwice? <==> s.undone
  {
    ReachableInv(s, fd);
    Own(s, i);
  }

  /** Unless some IncRef was refused, the panic cannot have happened. */
  lemma NoRefusalNoPanic(s: State, fd: nat)
    requires Reachable(s, fd) && !s.refused
    ensures !s.panic.ClosedTwice? && !s.undone
  {
    ReachableInv(s, fd);
  }

  /** It can happen: a refused IncRef takes its increment back, and swaps, while the closer
      stands between its last decrement and its own swap. */
  lemma ClosedTwiceHappens()
    ensures exists s :: Reachable(s, 7) && s.panic.ClosedTwice?
  {
    hide Apply, Inv;
    var s0, s4 := NewFD(7, 1), ClosedAlone();
    var first := [Move(0, DecRef), Move(0, LoadClosing), Move(0, CasClosing), Move(0, Lock)];
    var second := [Move(0, DecClosing), Move(1, IncRef), Move(1, Undo), Move(1, Swap)];
    RunFour(Apply, s0, first[0], first[1], first[2], first[3]);
    RunFour(Apply, s4, second[0], second[1], second[2], second[3]);
    var third := [Move(0, Swap)];
    RunAppend(Apply, s0, first, second);
    RunAppend(Apply, s0, first + second, third);
    assert Run(Apply, s0, first) == s4 by { FirstFour(); }
    var s8 := Run(Apply, s4, second);
    assert |s8.threads| == 2 && s8.threads[0].pc == Swapping(false) && s8.fd == FD_CLOSED && s8.panic.NoPanic? by { LastFour(); }
    var s9 := Apply(s8, Move(0, Swap));
    assert Run(Apply, s8, third) == s9 by { assert third[1..] == []; }
    LastSwap(s8);
    assert Reachable(s9, 7);
  }

  lemma LastSwap(s: State)
    requires |s.threads| == 2 && s.threads[0].pc == Swapping(false) && s.fd == FD_CLOSED && s.panic.NoPanic?
    ensures Apply(s, Move(0, Swap)).panic.ClosedTwice?
  {
  }

  /** Goroutine 0 has closed and locked; goroutine 1 has done nothing yet. */
  function ClosedAlone(): State {
    State(7, FLAG_CLOSED + 1, 0, [Thread(Idle, 0, Locked), Thread(Idle, 0, NotCloser)], NoPanic, 1, false, false, false)
  }

  lemma FirstFour()
    ensures var s := NewFD(7, 1);
            Apply(Apply(Apply(Apply(s, Move(0, DecRef)), Move(0, LoadClosing)), Move(0, CasClosing)), Move(0, Lock))
            == ClosedAlone()
  {
    var s0 := NewFD(7, 1);
    assert s0.threads == [Thread(Idle, 1, NotCloser), Thread(Idle, 0, NotCloser)];
    var s1 := Apply(s0, Move(0, DecRef));
    assert s1.threads == [Thread(Idle, 0, NotCloser), Thread(Idle, 0, NotCloser)] && s1.refs == 0;
    var s2 := Apply(s1, Move(0, LoadClosing));
    assert s2.threads == [Thread(Casing(0), 0, NotCloser), Thread(Idle, 0, NotCloser)];
    var s3 := Apply(s2, Move(0, CasClosing));
    assert s3.threads == [Thread(Idle, 0, Marked), Thread(Idle, 0, NotCloser)] && s3.refs == FLAG_CLOSED + 1;
    var s4 := Apply(s3, Move(0, Lock));
    assert s4.threads == ClosedAlone().threads;
  }

  lemma LastFour()
    ensures var s := Apply(Apply(Apply(Apply(ClosedAlone(), Move(0, DecClosing)), Move(1, IncRef)), Move(1, Undo)), Move(1, Swap));
            |s.threads| == 2 && s.threads[0].pc == Swapping(false) && s.fd == FD_CLOSED && s.panic.NoPanic?
  {
    var s4 := ClosedAlone();
    var s5 := Apply(s4, Move(0, DecClosing));
    assert s5.threads == [Thread(Swapping(false), 0, NotCloser), Thread(Idle, 0, NotCloser)] && s5.refs == FLAG_CLOSED;
    var s6 := Apply(s5, Move(1, IncRef));
    assert s6.threads == [Thread(Swapping(false), 0, NotCloser), Thread(Undoing, 0, NotCloser)] && s6.refs == FLAG_CLOSED + 1;
    var s7 := Apply(s6, Move(1, Undo));
    assert s7.threads == [Thread(Swapping(false), 0, NotCloser), Thread(Swapping(true), 0, NotCloser)];
  }

  // ---- the words implement a guard ----

  /** What the descriptor means to its users: the guard g. */
  ghost predicate Represents(g: Guard, s: State) {
    && |g.held| == |s.threads|
    && (forall i :: 0 <= i < |s.threads| ==> g.held[i] == s.threads[i].held)
    && (g.phase.Open? <==> s.closes == 0)
    && (g.phase.Closing? ==> g.phase.owner < |s.threads| && (s.threads[g.phase.owner].closer.Marked? || s.threads[g.phase.owner].closer.Blocked?))
    && (g.phase.Exclusive? ==> g.phase.owner < |s.threads| && s.threads[g.phase.owner].closer.Locked?)
    && (g.phase.Done? ==> s.closes == 1 && Closers(s) == 0)
  }

  /** The guard after a move. */
  function Meaning(g: Guard, s: State, m: Move): Guard
    requires |g.held| == |s.threads|
  {
    if !Enabled(s, m) then g else
    var i := m.thread;
    match m.action
    case IncRef => if Flagged(s.refs) then g else g.(held := g.held[i := g.held[i] + 1])
    case DecRef => if g.held[i] > 0 then g.(held := g.held[i := g.held[i] - 1]) else g
    case DecClosing => g.(phase := Done)
    case CasClosing => if s.refs == s.threads[i].pc.seen then g.(phase := Closing(i)) else g
    case Lock => if Left(s.refs) > 1 then g else g.(phase := Exclusive(i))
    case Acquire => g.(phase := Exclusive(i))
    case Handoff(to) => if g.held[i] > 0 then g.(held := g.held[i := g.held[i] - 1][to := g.held[to] + 1]) else g
    case _ => g
  }

  /** Whoever has a closing reference is the one the guard names. */
  lemma CloserIsNamed(g: Guard, s: State, i: nat)
    requires Inv(s) && Represents(g, s)
    requires i < |s.threads| && !s.threads[i].closer.NotCloser?
    ensures s.threads[i].closer.Locked? ==> g.phase == Exclusive(i)
    ensures !s.threads[i].closer.Locked? ==> g.phase == Closing(i)
    ensures Closers(s) == 1
  {
    Own(s, i);
    if (g.phase.Closing? || g.phase.Exclusive?) && g.phase.owner != i {
      SumAtLeastTwo(CloseBy, s.threads, if i < g.phase.owner then i else g.phase.owner, if i < g.phase.owner then g.phase.owner else i);
    }
  }

  /** Every atomic operation is a step of the guard, or is invisible to its users. */
  lemma StepRefines(g: Guard, s: State, m: Move)
    requires Inv(s) && Represents(g, s)
    ensures Represents(Meaning(g, s, m), Apply(s, m))
    ensures Meaning(g, s, m) == g || GuardStep(g, Meaning(g, s, m))
  {
    if Enabled(s, m) {
      var i := m.thread;
      match m.action
      case IncRef => AcquireRefines(g, s, i);
      case Undo => SubRefines(g, s, i, m.action);
      case DecRef => SubRefines(g, s, i, m.action);
      case DecClosing => SubRefines(g, s, i, m.action);
      case CasClosing => MarkRefines(g, s, i);
      case Lock => ExcludeRefines(g, s, i, m.action);
      case Acquire => ExcludeRefines(g, s, i, m.action);
      case Handoff(to) => HandoffRefines(g, s, i, to);
      case Swap => QuietRefines(g, s, i, m.action);
      case Release => QuietRefines(g, s, i, m.action);
      case LoadClosing => QuietRefines(g, s, i, m.action);
      case ReadFd =>
    }
  }

  lemma QuietRefines(g: Guard, s: State, i: nat, a: Action)
    requires Inv(s) && Represents(g, s) && Enabled(s, Move(i, a))
    requires a.Swap? || a.Release? || a.LoadClosing?
    ensures Represents(g, Apply(s, Move(i, a)))
  {
    var s' := Apply(s, Move(i, a));
    assert s'.threads == s.threads[i := s'.threads[i]] && s'.closes == s.closes;
    Recount(s, i, s'.threads[i]);
    assert Closers(s') == Closers(Put(s, i, s'.threads[i]));
  }

  lemma AcquireRefines(g: Guard, s: State, i: nat)
    requires Inv(s) && Represents(g, s) && Enabled(s, Move(i, IncRef))
    ensures var m := Move(i, IncRef);
            && Represents(Meaning(g, s, m), StepIncRef(s, i))
            && (Meaning(g, s, m) == g || GuardStep(g, Meaning(g, s, m)))
  {
    hide Sum;
    var t, s' := s.threads[i], StepIncRef(s, i);
    WordParts(s.closes == 1, Tokens(s));
    WordParts(s.closes == 1, Tokens(s) + 1);
    var t' := if s.closes == 1 then t.(pc := Undoing) else t.(held := t.held + 1);
    Recount(s, i, t');
    assert s'.threads == s.threads[i := t'] && s'.closes == s.closes && Closers(s') == Closers(s);
    if s.closes == 0 {
      assert Acquires(g, Meaning(g, s, Move(i, IncRef)), i);
    }
  }

  lemma SubRefines(g: Guard, s: State, i: nat, a: Action)
    requires Inv(s) && Represents(g, s) && Enabled(s, Move(i, a))
    requires a.Undo? || a.DecRef? || a.DecClosing?
    ensures var m := Move(i, a);
            && Represents(Meaning(g, s, m), Apply(s, m))
            && (Meaning(g, s, m) == g || GuardStep(g, Meaning(g, s, m)))
  {
    hide Sum, Flagged, Left, AddUint32;
    var m := Move(i, a);
    SubRepresents(g, s, i, a);
    if a.DecRef? {
      assert Drops(g, Meaning(g, s, m), i);
    } else if a.DecClosing? {
      EndRefines(g, s, i);
    }
  }

  lemma SubRepresents(g: Guard, s: State, i: nat, a: Action)
    requires Inv(s) && Represents(g, s) && Enabled(s, Move(i, a))
    requires a.Undo? || a.DecRef? || a.DecClosing?
    ensures Represents(Meaning(g, s, Move(i, a)), Apply(s, Move(i, a)))
  {
    hide Sum;
    SubMoves(s, i, a);
    if a.DecClosing? { EndRefines(g, s, i); }
    assert Enabled(s, Move(i, a));
    hide Apply, Inv, Enabled;
  }

  lemma SubMoves(s: State, i: nat, a: Action)
    requires NonNegative(s) && Enabled(s, Move(i, a)) && (a.Undo? || a.DecRef? || a.DecClosing?)
    ensures var s' := Apply(s, Move(i, a));
            && |s'.threads| == |s.threads| && s'.threads == s.threads[i := s'.threads[i]] && s'.closes == s.closes
            && Closers(s') == Closers(s) - CloseBy(s.threads[i]) + CloseBy(s'.threads[i])
            && s'.threads[i].held == s.threads[i].held - (if a.DecRef? then 1 else 0)
            && s'.threads[i].closer == if a.DecClosing? then NotCloser else s.threads[i].closer
  {
    var s' := Apply(s, Move(i, a));
    var t := s.threads[i];
    var t' := if a.Undo? then t.(pc := Idle) else if a.DecRef? then t.(held := t.held - 1) else t.(closer := NotCloser);
    assert s' == SubRef(s, i, t', a.Undo?);
    hide Sum, AddUint32, Flagged, Left, Apply, Enabled;
    SubFrames(s, i, t', a.Undo?);
    assert s'.threads == s.threads[i := s'.threads[i]];
    Recount(s, i, s'.threads[i]);
    assert Closers(s') == Closers(Put(s, i, s'.threads[i]));
  }

  lemma EndRefines(g: Guard, s: State, i: nat)
    requires Inv(s) && Represents(g, s) && Enabled(s, Move(i, DecClosing))
    ensures Ends(g, g.(phase := Done), i) && Closers(s) == 1
  {
    CloserIsNamed(g, s, i);
  }

  lemma MarkRefines(g: Guard, s: State, i: nat)
    requires Inv(s) && Represents(g, s) && Enabled(s, Move(i, CasClosing))
    ensures var m := Move(i, CasClosing);
            && Represents(Meaning(g, s, m), Apply(s, m))
            && (Meaning(g, s, m) == g || GuardStep(g, Meaning(g, s, m)))
  {
    var t, m := s.threads[i], Move(i, CasClosing);
    WordParts(s.closes == 1, Tokens(s));
    if s.refs == t.pc.seen {
      assert s.closes == 0;
      assert Marks(g, Meaning(g, s, m), i);
    } else {
      Recount(s, i, t.(pc := Idle));
    }
  }

  lemma ExcludeRefines(g: Guard, s: State, i: nat, a: Action)
    requires Inv(s) && Represents(g, s) && Enabled(s, Move(i, a))
    requires a.Lock? || a.Acquire?
    ensures var m := Move(i, a);
            && Represents(Meaning(g, s, m), Apply(s, m))
            && (Meaning(g, s, m) == g || GuardStep(g, Meaning(g, s, m)))
  {
    var m := Move(i, a);
    var s' := Apply(s, m);
    LockKeepsInv(s, i, a);
    CloserIsNamed(g, s, i);
    Own(s, i);
    Own(s', i);
    WordParts(s.closes == 1, Tokens(s));
    if s'.threads[i].closer.Locked? {
      forall j | 0 <= j < |s.threads| ensures g.held[j] == 0 {
        Own(s', j);
        assert s'.threads[j].held == s.threads[j].held;
      }
      assert Excludes(g, Meaning(g, s, m), i);
    }
  }

  lemma HandoffRefines(g: Guard, s: State, i: nat, to: nat)
    requires Inv(s) && Represents(g, s) && Enabled(s, Move(i, Handoff(to)))
    ensures var m := Move(i, Handoff(to));
            && Represents(Meaning(g, s, m), Apply(s, m))
            && (Meaning(g, s, m) == g || GuardStep(g, Meaning(g, s, m)))
  {
    hide Sum;
    var mid := Put(s, i, s.threads[i].(held := s.threads[i].held - 1));
    Recount(s, i, mid.threads[i]);
    Recount(mid, to, mid.threads[to].(held := mid.threads[to].held + 1));
    assert Passes(g, Meaning(g, s, Move(i, Handoff(to))), i, to);
  }

  // ---- the calls of fd.go, made among other goroutines ----

  /** Moves of goroutines other than i. */
  predicate Foreign(ms: seq<Move>, i: nat) {
    forall k :: 0 <= k < |ms| ==> ms[k].thread != i
  }

  /** Nobody else can move goroutine i; they can only hand it references. */
  lemma {:induction false} ForeignKeeps(s: State, ms: seq<Move>, i: nat)
    requires i < |s.threads| && Foreign(ms, i)
    ensures var s' := Run(Apply, s, ms);
            && |s'.threads| == |s.threads| && s'.threads[i].pc == s.threads[i].pc
            && s'.threads[i].closer == s.threads[i].closer && s.threads[i].held <= s'.threads[i].held
            && (!s.panic.NoPanic? ==> s' == s)
    decreases |ms|
  {
    if ms != [] {
      ForeignStepKeeps(s, ms[0], i);
      ForeignKeeps(Apply(s, ms[0]), ms[1..], i);
    }
  }

  lemma ForeignStepKeeps(s: State, m: Move, i: nat)
    requires i < |s.threads| && m.thread != i
    ensures var s' := Apply(s, m);
            && |s'.threads| == |s.threads| && s'.threads[i].pc == s.threads[i].pc
            && s'.threads[i].closer == s.threads[i].closer && s.threads[i].held <= s'.threads[i].held
            && (!s.panic.NoPanic? ==> s' == s)
  {
    hide AddUint32, Flagged, Left, SubRef;
    if Enabled(s, m) {
      var j := m.thread;
      match m.action
      case Undo => SubFrames(s, j, s.threads[j].(pc := Idle), true);
      case DecRef => SubFrames(s, j, s.threads[j].(held := s.threads[j].held - 1), false);
      case DecClosing => SubFrames(s, j, s.threads[j].(closer := NotCloser), false);
      case Handoff(to) => HandoffFrames(s, j, to, i);
      case _ =>
    }
  }

  lemma HandoffFrames(s: State, j: nat, to: nat, i: nat)
    requires j < |s.threads| && to < |s.threads| && i < |s.threads| && i != j && s.threads[j].held > 0
    ensures var s' := StepHandoff(s, j, to);
            && |s'.threads| == |s.threads| && s'.threads[i].pc == s.threads[i].pc
            && s'.threads[i].closer == s.threads[i].closer && s.threads[i].held <= s'.threads[i].held
  {
  }

  /** The FD struct. The goroutines that use it, and the history, are there to be specified. */
  class FD {
    var fd: nat
    var refs: nat
    var sema: nat
    var threads: seq<Thread>
    var panic: Panic
    var closes: nat
    var refused: bool
    var undone: bool
    var ended: bool

    function View(): State
      reads this
    {
      State(fd, refs, sema, threads, panic, closes, refused, undone, ended)
    }

    constructor (n: nat, others: nat)
      ensures View() == NewFD(n, others)
    {
      fd, refs, sema, panic := n, 1, 0, NoPanic;
      threads := [Thread(Idle, 1, NotCloser)] + seq(others, _ => Thread(Idle, 0, NotCloser));
      closes, refused, undone, ended := 0, false, false, false;
    }

    /** What the other goroutines do between two atomic operations of this one. */
    method Interfere(ms: seq<Move>)
      modifies this
      ensures View() == Run(Apply, old(View()), ms)
    {
      hide Apply;
      for k := 0 to |ms|
        invariant View() == Run(Apply, old(View()), ms[..k])
      {
        RunNext(Apply, old(View()), ms, k);
        var s := Apply(View(), ms[k]);
        fd, refs, sema, threads, panic := s.fd, s.refs, s.sema, s.threads, s.panic;
        closes, refused, undone, ended := s.closes, s.refused, s.undone, s.ended;
      }
      assert ms[..|ms|] == ms;
    }

    /** The decrement of decRef. */
    method Subtract(i: nat, a: Action)
      requires a.Undo? || a.DecRef? || a.DecClosing?
      requires Enabled(View(), Move(i, a))
      modifies this
      ensures View() == Apply(old(View()), Move(i, a))
    {
      var t := threads[i];
      var t' := match a case Undo => t.(pc := Idle) case DecRef => t.(held := t.held - 1) case _ => t.(closer := NotCloser);
      refs := AddUint32(refs, MINUS_ONE);
      if Left(refs) >= MAX_REFS {
        panic := Underflow;
      } else if Flagged(refs) && Left(refs) == 1 {
        t' := t'.(pc := Releasing);
      } else if Flagged(refs) && Left(refs) == 0 {
        t' := t'.(pc := Swapping(a.Undo?));
      }
      threads := threads[i := t'];
    }

    /** What the decrement leads to: a semrelease, a swap, or nothing. */
    method Settle(i: nat)
      requires i < |threads|
      modifies this
      ensures View() == Apply(Apply(old(View()), Move(i, Release)), Move(i, Swap))
    {
      if panic.NoPanic? {
        match threads[i].pc {
          case Releasing =>
            sema := sema + 1;
            threads := threads[i := threads[i].(pc := Idle)];
          case Swapping(internal) =>
            var val := fd;
            fd := FD_CLOSED;
            if val == FD_CLOSED && !internal {
              panic := ClosedTwice;
            }
            threads := threads[i := threads[i].(pc := Idle)];
            undone, ended := undone || internal, ended || !internal;
          case _ =>
        }
      }
    }

    method DecRefOf(i: nat, a: Action, between: seq<Move>)
      requires a.Undo? || a.DecRef? || a.DecClosing?
      requires Enabled(View(), Move(i, a)) && Foreign(between, i)
      modifies this
      ensures View() == Run(Apply, old(View()), [Move(i, a)] + between + [Move(i, Release)] + [Move(i, Swap)])
    {
      ghost var s0 := View();
      Subtract(i, a);
      RunOne(Apply, s0, Move(i, a));
      RunAppend(Apply, s0, [Move(i, a)], between);
      ForeignKeeps(View(), between, i);
      Interfere(between);
      RunThen(Apply, s0, [Move(i, a)] + between, Move(i, Release));
      RunThen(Apply, s0, [Move(i, a)] + between + [Move(i, Release)], Move(i, Swap));
      Settle(i);
    }

    method IncRef(i: nat, before: seq<Move>, between: seq<Move>) returns (ok: bool)
      requires Enabled(View(), Move(i, Action.IncRef)) && Foreign(before, i) && Foreign(between, i)
      modifies this
      ensures ok == !Flagged(AddUint32(old(refs), 1))
      ensures ok ==> View() == Apply(old(View()), Move(i, Action.IncRef))
      ensures !ok ==> View() == Run(Apply, old(View()), [Move(i, Action.IncRef)] + before
                                    + ([Move(i, Undo)] + between + [Move(i, Release)] + [Move(i, Swap)]))
    {
      ghost var s0 := View();
      refs := AddUint32(refs, 1);
      if Flagged(refs) {
        threads := threads[i := threads[i].(pc := Undoing)];
        refused := true;
        RunOne(Apply, s0, Move(i, Action.IncRef));
        RunAppend(Apply, s0, [Move(i, Action.IncRef)], before);
        ForeignKeeps(View(), before, i);
        Interfere(before);
        ghost var rest := [Move(i, Undo)] + between + [Move(i, Release)] + [Move(i, Swap)];
        RunAppend(Apply, s0, [Move(i, Action.IncRef)] + before, rest);
        if panic.NoPanic? {
          DecRefOf(i, Undo, between);
        } else {
          RunPanicked(View(), rest);
        }
        return false;
      }
      if refs >= MAX_REFS {
        panic := TooManyRefs;
      }
      threads := threads[i := threads[i].(held := threads[i].held + 1)];
      return true;
    }

    method DecRef(i: nat, between: seq<Move>)
      requires Enabled(View(), Move(i, Action.DecRef)) && Foreign(between, i)
      modifies this
      ensures View() == Run(Apply, old(View()), [Move(i, Action.DecRef)] + between + [Move(i, Release)] + [Move(i, Swap)])
    {
      DecRefOf(i, Action.DecRef, between);
    }

    /** The load of ClosingIncRef. */
    method LoadForClosing(i: nat) returns (closed: bool)
      requires Enabled(View(), Move(i, LoadClosing))
      modifies this
      ensures View() == Apply(old(View()), Move(i, LoadClosing))
      ensures closed == Flagged(refs) && (!closed ==> Enabled(View(), Move(i, CasClosing)))
    {
      var seen := refs;
      closed := Flagged(seen);
      if !closed {
        threads := threads[i := threads[i].(pc := Casing(seen))];
      }
    }

    /** The compare-and-swap of ClosingIncRef. */
    method CompareAndMark(i: nat) returns (ok: bool)
      requires Enabled(View(), Move(i, CasClosing))
      modifies this
      ensures View() == Apply(old(View()), Move(i, CasClosing))
      ensures ok == (old(refs) == old(threads)[i].pc.seen)
      ensures ok ==> threads[i].closer.Marked?
    {
      var seen := threads[i].pc.seen;
      ok := refs == seen;
      if ok {
        refs := FLAG_CLOSED + seen + 1;
        threads := threads[i := threads[i].(pc := Idle, closer := Marked)];
        closes := closes + 1;
      } else {
        threads := threads[i := threads[i].(pc := Idle)];
      }
    }

    /** Load, then compare and swap, and start over when another goroutine came in between;
        bursts[k] is what the others do inside attempt k, and after the last burst they rest. */
    method ClosingIncRef(i: nat, bursts: seq<seq<Move>>) returns (ok: bool, ghost trace: seq<Move>)
      requires Enabled(View(), Move(i, LoadClosing)) && threads[i].closer.NotCloser?
      requires forall k :: 0 <= k < |bursts| ==> Foreign(bursts[k], i)
      modifies this
      ensures View() == Run(Apply, old(View()), trace)
      ensures ok ==> i < |threads| && threads[i].closer.Marked?
      ensures !ok ==> Flagged(refs) || !panic.NoPanic?
    {
      ghost var s0 := View();
      trace := [];
      var k := 0;
      while true
        invariant 0 <= k <= |bursts| && View() == Run(Apply, s0, trace)
        invariant Enabled(View(), Move(i, LoadClosing)) && threads[i].closer.NotCloser?
        decreases |bursts| - k
      {
        var closed := LoadForClosing(i);
        RunThen(Apply, s0, trace, Move(i, LoadClosing));
        trace := trace + [Move(i, LoadClosing)];
        if closed {
          return false, trace;
        }
        var burst := if k < |bursts| then bursts[k] else [];
        ForeignKeeps(View(), burst, i);
        RunAppend(Apply, s0, trace, burst);
        Interfere(burst);
        trace := trace + burst;
        if !panic.NoPanic? {
          return false, trace;
        }
        RunThen(Apply, s0, trace, Move(i, CasClosing));
        trace := trace + [Move(i, CasClosing)];
        ok := CompareAndMark(i);
        if ok {
          return true, trace;
        }
        k := k + 1;
      }
    }

    /** If the wakeup has not come when the others rest, the caller is still asleep. */
    /** The decrement of Lock: asleep if others hold references, else exclusive. */
    method Sleep(i: nat)
      requires Enabled(View(), Move(i, Action.Lock))
      modifies this
      ensures View() == Apply(old(View()), Move(i, Action.Lock))
    {
      if !Flagged(refs) {
        panic := LockUnmarked;
      } else {
        threads := threads[i := threads[i].(closer := if Left(refs) > 1 then Blocked else Locked)];
      }
    }

    /** The end of the wait, if there is one. */
    method Wake(i: nat)
      requires i < |threads|
      modifies this
      ensures View() == Apply(old(View()), Move(i, Acquire))
    {
      if panic.NoPanic? && threads[i].closer.Blocked? && sema > 0 {
        sema := sema - 1;
        threads := threads[i := threads[i].(closer := Locked)];
      }
    }

    method Lock(i: nat, others: seq<Move>)
      requires Enabled(View(), Move(i, Action.Lock)) && Foreign(others, i)
      modifies this
      ensures View() == Run(Apply, old(View()), [Move(i, Action.Lock)] + others + [Move(i, Acquire)])
    {
      ghost var s0 := View();
      assert i < |threads|;
      Sleep(i);
      StepKeepsFd(s0, Move(i, Action.Lock));
      hide Apply;
      RunOne(Apply, s0, Move(i, Action.Lock));
      RunAppend(Apply, s0, [Move(i, Action.Lock)], others);
      RunThen(Apply, s0, [Move(i, Action.Lock)] + others, Move(i, Acquire));
      ForeignKeeps(View(), others, i);
      Interfere(others);
      Wake(i);
    }

    method ReadFD(i: nat) returns (val: nat)
      requires Enabled(View(), Move(i, ReadFd))
      modifies this
      ensures View() == Apply(old(View()), Move(i, ReadFd)) && val == fd
      ensures old(threads[i].held > 0 || !threads[i].closer.NotCloser?) ==>
                forall created: nat :: Reachable(old(View()), created) ==> val == created && View() == old(View())
    {
      forall created: nat | Reachable(View(), created) && (threads[i].held > 0 || !threads[i].closer.NotCloser?)
        ensures fd == created && Apply(View(), Move(i, ReadFd)) == View()
      {
        HolderSeesDescriptor(View(), created, i);
      }
      val := fd;
      if val == FD_CLOSED {
        panic := FdMisuse;
      }
    }
  }

  /** A panic ends the process. */
  lemma {:induction false} RunPanicked(s: State, ms: seq<Move>)
    requires !s.panic.NoPanic?
    ensures Run(Apply, s, ms) == s
    decreases |ms|
  {
    if ms != [] {
      RunPanicked(s, ms[1..]);
    }
  }
}
