// Sockets that share an inode: cmd/run/socket/socket.go over cmd/run/socket/inode.go.
//
// The immutable states live in an append-only heap, and the inode's state pointer is an index
// into it, so that a compare-and-swap compares addresses and not contents. Each descriptor is
// known only through its Guard phase. One step is one access to shared memory or one system
// call; its outcome, when the kernel decides it, is the move's choice.
module Sockets {
  import opened Guards
  import opened Options

  // ImmutableState; only what the protocol looks at. bind names a temporary socket.
  datatype ImState =
    | Passive(bind: Option<nat>)
    | Connecting(peerBind: nat)
    | Connected
    | Listening
    | Closed
  {
    /** The temporary bind socket the state refers to. */
    function Bind(): Option<nat> {
      match this
      case Passive(b) => b
      case Connecting(t) => Some(t)
      case _ => None
    }
  }

  /** The transitions the state pointer may make. */
  predicate Allowed(from: ImState, to: ImState) {
    match from
    case Passive(_) => to.Passive? || to.Connecting? || to.Listening? || to.Closed?
    case Connecting(_) => to.Connected? || to.Passive? || to.Closed?
    case Connected => to.Closed?
    case Listening => to.Closed?
    case Closed => false
  }

  datatype Kind = ConnectCall | BindCall | ListenCall | OtherCall

  // Where a call, or the goroutine Connect starts, stands.
  datatype Pc =
    | Start(kind: Kind)                                // has its reference on the socket
    | ConnectPrep(prev: nat)                           // saw Passive
    | ConnectCas(prev: nat, temp: nat, own: bool)      // about to swap in Connecting
    | ConnectDial(mid: nat, temp: nat)                 // swapped; about to make the dummy listener
    | ConnectTail                                      // connecting the process side
    | BindPrep(prev: nat)
    | BindSys(prev: nat, temp: nat, own: bool)         // about to bind(2) the temporary socket
    | BindFailed(prev: nat)                            // about to swap in the errno
    | BindCas(prev: nat, temp: nat, own: bool)
    | BindUndo(temp: nat)                              // lost the swap; about to close its own socket
    | ListenPrep(prev: nat)
    | ListenTake(prev: nat, temp: nat)                 // about to ClosingIncRef the previous bind
    | ListenKill(prev: nat, temp: nat)                 // won it; about to close(2), without Lock
    | ListenCas(prev: nat)
    | CloseWait | CloseSys | CloseRemove | CloseLoad | CloseCas(prev: nat)
    | Dialing(mid: nat, temp: nat)                     // the completion goroutine
    | DialCas(mid: nat, temp: nat, next: ImState)
    | Shut(temp: nat, must: bool)                      // about to ClosingIncRef temp
    | Shutting(temp: nat)                              // won it; in Lock, or about to close(2)
    | Finished

  // Foreground calls hold a reference on their socket; a Closer holds the closing one.
  datatype Role = Foreground | Closer | Background

  datatype Op = Op(role: Role, sock: nat, pc: Pc)

  // Who has to see to it that a temporary socket is closed.
  datatype Owner = InState | ByOp(op: nat)

  // closing: a ClosingIncRef has won; closes: how often it was closed; shared: some state
  // has referred to it.
  datatype Temp = Temp(closing: bool, closes: nat, shared: bool, owner: Owner)

  datatype Panic = NoPanic | Untrack | AlreadyClosed | LocalTempRef

  datatype Choice = Yes | No | Errno

  // lastOp is the Close call that emptied the list of open sockets; failed are the sockets whose
  // close(2) failed.
  datatype State = State(heap: seq<ImState>, cur: nat, socks: seq<Phase>, open: seq<nat>,
                         temps: seq<Temp>, ops: seq<Op>, panic: Panic,
                         lastOp: Option<nat>, installed: bool, failed: set<nat>)

  datatype Move =
    | Begin(sock: nat, kind: Kind)
    | BeginClose(sock: nat)
    | Join(op: nat)
    | Go(op: nat, choice: Choice)

  /** CreateSocket: one socket on a new Passive inode. */
  function NewInode(): State {
    State([Passive(None)], 0, [Open], [0], [], [], NoPanic, None, false, {})
  }

  // ---- Inode.add and Inode.remove ----

  function IndexOf(open: seq<nat>, k: nat): (i: nat)
    ensures i <= |open|
    ensures forall j :: 0 <= j < i ==> open[j] != k
    ensures i < |open| ==> open[i] == k
  {
    if open == [] then 0 else if open[0] == k then 0 else 1 + IndexOf(open[1..], k)
  }

  /** Swap the found element with the last one and drop the end. */
  function Removed(open: seq<nat>, k: nat): seq<nat> {
    var i := IndexOf(open, k);
    if i == |open| then open else open[i := open[|open| - 1]][..|open| - 1]
  }

  predicate Distinct(open: seq<nat>) {
    forall i, j :: 0 <= i < j < |open| ==> open[i] != open[j]
  }

  lemma RemovedKeepsTheRest(open: seq<nat>, k: nat)
    requires Distinct(open) && k in open
    ensures Distinct(Removed(open, k)) && |Removed(open, k)| == |open| - 1
    ensures forall x :: x in Removed(open, k) <==> x in open && x != k
  {
    var i, n := IndexOf(open, k), |open| - 1;
    var r := Removed(open, k);
    forall x | x in open && x != k ensures x in r {
      var j :| 0 <= j < |open| && open[j] == x;
      assert r[if j == n then i else j] == x;
    }
  }

  // ---- steps ----

  predicate Live(op: Op) { !op.pc.Finished? }

  /** A reference on socket k taken by a successful IncRef. */
  predicate Holds(op: Op, k: nat) { op.role.Foreground? && op.sock == k && Live(op) }

  function Goto(s: State, o: nat, pc: Pc): State
    requires o < |s.ops|
  {
    s.(ops := s.ops[o := s.ops[o].(pc := pc)])
  }

  /** Return from the call; a Closer drops the closing reference. */
  function Finish(s: State, o: nat): State
    requires o < |s.ops| && s.ops[o].sock < |s.socks|
  {
    var s' := Goto(s, o, Finished);
    if s.ops[o].role.Closer? then s'.(socks := s.socks[s.ops[o].sock := Done]) else s'
  }

  function Install(s: State, next: ImState): State {
    s.(heap := s.heap + [next], cur := |s.heap|)
  }

  function SetTemp(s: State, t: nat, temp: Temp): State
    requires t < |s.temps|
  {
    s.(temps := s.temps[t := temp])
  }

  /** The new state refers to temp, and answers for it unless somebody is closing it already. */
  function Share(s: State, t: nat): State
    requires t < |s.temps|
  {
    var temp := s.temps[t];
    SetTemp(s, t, temp.(shared := true, owner := if temp.closing then temp.owner else InState))
  }

  /** Operation o takes over the duty to close temp, unless somebody is closing it already. */
  function Assume(s: State, t: nat, o: nat): State
    requires t < |s.temps|
  {
    var temp := s.temps[t];
    if temp.closing then s else SetTemp(s, t, temp.(owner := ByOp(o)))
  }

  /** newTempBindSocket */
  function NewTemp(s: State, o: nat): State {
    s.(temps := s.temps + [Temp(false, 0, false, ByOp(o))])
  }

  /** close(2) on a temporary socket */
  function CloseTemp(s: State, t: nat): State
    requires t < |s.temps|
  {
    SetTemp(s, t, s.temps[t].(closes := s.temps[t].closes + 1))
  }

  /** The numbers operation o carries are in range. */
  predicate Ready(s: State, o: nat) {
    && o < |s.ops| && s.cur < |s.heap| && s.ops[o].sock < |s.socks|
    && (Saw(s.ops[o].pc).Some? ==> Saw(s.ops[o].pc).value < |s.heap| && BindInRange(s, Saw(s.ops[o].pc).value))
    && (Uses(s.ops[o].pc).Some? ==> Uses(s.ops[o].pc).value < |s.temps|)
  }

  predicate BindInRange(s: State, h: nat)
    requires h < |s.heap|
  {
    s.heap[h].Bind().Some? ==> s.heap[h].Bind().value < |s.temps|
  }

  /** The state an operation loaded, or swapped in, and remembers. */
  function Saw(pc: Pc): Option<nat> {
    match pc
    case ConnectPrep(h) => Some(h)
    case ConnectCas(h, _, _) => Some(h)
    case ConnectDial(h, _) => Some(h)
    case BindPrep(h) => Some(h)
    case BindSys(h, _, _) => Some(h)
    case BindFailed(h) => Some(h)
    case BindCas(h, _, _) => Some(h)
    case ListenPrep(h) => Some(h)
    case ListenTake(h, _) => Some(h)
    case ListenKill(h, _) => Some(h)
    case ListenCas(h) => Some(h)
    case CloseCas(h) => Some(h)
    case Dialing(h, _) => Some(h)
    case DialCas(h, _, _) => Some(h)
    case _ => None
  }

  /** The temporary socket an operation names. */
  function Uses(pc: Pc): Option<nat> {
    match pc
    case ConnectCas(_, t, _) => Some(t)
    case ConnectDial(_, t) => Some(t)
    case BindSys(_, t, _) => Some(t)
    case BindCas(_, t, _) => Some(t)
    case BindUndo(t) => Some(t)
    case ListenTake(_, t) => Some(t)
    case ListenKill(_, t) => Some(t)
    case Dialing(_, t) => Some(t)
    case DialCas(_, t, _) => Some(t)
    case Shut(t, _) => Some(t)
    case Shutting(t) => Some(t)
    case _ => None
  }

  function StepStart(s: State, o: nat): State
    requires Ready(s, o) && s.ops[o].pc.Start?
  {
    var prev := s.heap[s.cur];
    match s.ops[o].pc.kind
    case ConnectCall => if prev.Passive? then Goto(s, o, ConnectPrep(s.cur)) else Finish(s, o)
    case BindCall => if prev.Passive? then Goto(s, o, BindPrep(s.cur)) else Finish(s, o)
    case ListenCall => if prev.Passive? then Goto(s, o, ListenPrep(s.cur)) else Finish(s, o)
    case OtherCall => Finish(s, o)
  }

  /** No: fcntl, getsockname or the creation of a temporary socket failed. */
  function StepConnectPrep(s: State, o: nat, c: Choice): State
    requires Ready(s, o) && s.ops[o].pc.ConnectPrep?
  {
    var prev := s.ops[o].pc.prev;
    if !c.Yes? then Finish(s, o)
    else match s.heap[prev].Bind()
         case None => Goto(NewTemp(s, o), o, ConnectCas(prev, |s.temps|, true))
         case Some(t) => Goto(s, o, ConnectCas(prev, t, false))
  }

  /** No: the new temporary socket could not be bound to an ephemeral address. */
  function StepConnectCas(s: State, o: nat, c: Choice): State
    requires Ready(s, o) && s.ops[o].pc.ConnectCas?
  {
    var pc := s.ops[o].pc;
    if pc.own && !c.Yes? then Goto(s, o, Shut(pc.temp, true))
    else if s.cur == pc.prev then
      Share(Install(Goto(s, o, ConnectDial(|s.heap|, pc.temp)), Connecting(pc.temp)), pc.temp)
    else if pc.own then Goto(s, o, Shut(pc.temp, false))
    else Finish(s, o)
  }

  /** No: the dummy listener could not be created, and no goroutine starts. */
  function StepConnectDial(s: State, o: nat, c: Choice): State
    requires Ready(s, o) && s.ops[o].pc.ConnectDial?
  {
    var pc := s.ops[o].pc;
    if !c.Yes? then Finish(s, o)
    else var s' := Goto(s, o, ConnectTail);
         s'.(ops := s'.ops + [Op(Background, s.ops[o].sock, Dialing(pc.mid, pc.temp))])
  }

  /** Yes: both connections are there. Errno: the dial failed with an errno. No: anything else. */
  function StepDialing(s: State, o: nat, c: Choice): State
    requires Ready(s, o) && s.ops[o].pc.Dialing?
  {
    var pc := s.ops[o].pc;
    match c
    case Yes => Goto(s, o, DialCas(pc.mid, pc.temp, Connected))
    case Errno => Goto(s, o, DialCas(pc.mid, pc.temp, Passive(Some(pc.temp))))
    case No => Goto(s, o, Shut(pc.temp, false))
  }

  function StepDialCas(s: State, o: nat): State
    requires Ready(s, o) && s.ops[o].pc.DialCas?
  {
    var pc := s.ops[o].pc;
    if s.cur != pc.mid then Goto(s, o, Shut(pc.temp, false))
    else if pc.next.Passive? then Install(Finish(s, o), pc.next)
    else Assume(Install(Goto(s, o, Shut(pc.temp, false)), pc.next), pc.temp, o)
  }

  /** No: the address has the wrong family, or no temporary socket could be created. */
  function StepBindPrep(s: State, o: nat, c: Choice): State
    requires Ready(s, o) && s.ops[o].pc.BindPrep?
  {
    var prev := s.ops[o].pc.prev;
    if !c.Yes? then Finish(s, o)
    else match s.heap[prev].Bind()
         case None => Goto(NewTemp(s, o), o, BindSys(prev, |s.temps|, true))
         case Some(t) => if s.temps[t].closing then Finish(s, o) else Goto(s, o, BindSys(prev, t, false))
  }

  function StepBindSys(s: State, o: nat, c: Choice): State
    requires Ready(s, o) && s.ops[o].pc.BindSys?
  {
    var pc := s.ops[o].pc;
    if c.Yes? then Goto(s, o, BindCas(pc.prev, pc.temp, pc.own))
    else if pc.own then CloseTemp(Goto(s, o, BindFailed(pc.prev)), pc.temp)
    else Goto(s, o, BindFailed(pc.prev))
  }

  /** Errno: bind(2) failed with an errno, which the new Passive state records. */
  function StepBindFailed(s: State, o: nat, c: Choice): State
    requires Ready(s, o) && s.ops[o].pc.BindFailed?
  {
    var prev := s.ops[o].pc.prev;
    if c.Errno? && s.cur == prev then Install(Finish(s, o), Passive(s.heap[prev].Bind())) else Finish(s, o)
  }

  function StepBindCas(s: State, o: nat): State
    requires Ready(s, o) && s.ops[o].pc.BindCas?
  {
    var pc := s.ops[o].pc;
    if s.cur == pc.prev then Share(Install(Finish(s, o), Passive(Some(pc.temp))), pc.temp)
    else if pc.own then Goto(s, o, BindUndo(pc.temp))
    else Finish(s, o)
  }

  function StepBindUndo(s: State, o: nat): State
    requires Ready(s, o) && s.ops[o].pc.BindUndo?
  {
    CloseTemp(Finish(s, o), s.ops[o].pc.temp)
  }

  /** No: bind(2), getsockname or listen failed. */
  function StepListenPrep(s: State, o: nat, c: Choice): State
    requires Ready(s, o) && s.ops[o].pc.ListenPrep?
  {
    var prev := s.ops[o].pc.prev;
    if !c.Yes? then Finish(s, o)
    else match s.heap[prev].Bind()
         case None => Goto(s, o, ListenCas(prev))
         case Some(t) => Goto(s, o, ListenTake(prev, t))
  }

  function StepListenTake(s: State, o: nat): State
    requires Ready(s, o) && s.ops[o].pc.ListenTake?
  {
    var pc := s.ops[o].pc;
    if s.temps[pc.temp].closing then Goto(s, o, ListenCas(pc.prev))
    else SetTemp(Goto(s, o, ListenKill(pc.prev, pc.temp)), pc.temp,
                 s.temps[pc.temp].(closing := true, owner := ByOp(o)))
  }

  function StepListenKill(s: State, o: nat): State
    requires Ready(s, o) && s.ops[o].pc.ListenKill?
  {
    CloseTemp(Goto(s, o, ListenCas(s.ops[o].pc.prev)), s.ops[o].pc.temp)
  }

  function StepListenCas(s: State, o: nat): State
    requires Ready(s, o) && s.ops[o].pc.ListenCas?
  {
    if s.cur == s.ops[o].pc.prev then Install(Finish(s, o), Listening) else Finish(s, o)
  }

  /** ClosingIncRef on a temporary socket. */
  function StepShut(s: State, o: nat): State
    requires Ready(s, o) && s.ops[o].pc.Shut?
  {
    var pc := s.ops[o].pc;
    if !s.temps[pc.temp].closing then
      SetTemp(Goto(s, o, Shutting(pc.temp)), pc.temp, s.temps[pc.temp].(closing := true, owner := ByOp(o)))
    else if pc.must then s.(panic := LocalTempRef)
    else Finish(s, o)
  }

  /** The temporary socket on which a Bind holds a reference. */
  function Refers(s: State, op: Op): Option<nat> {
    match op.pc
    case BindSys(_, t, _) => Some(t)
    case BindCas(_, t, _) => Some(t)
    case BindFailed(h) => if h < |s.heap| then s.heap[h].Bind() else None
    case _ => None
  }

  /** Lock on temporary socket t, and close(2). */
  function StepShutting(s: State, o: nat): State
    requires Ready(s, o) && s.ops[o].pc.Shutting?
  {
    var t := s.ops[o].pc.temp;
    if forall o' :: 0 <= o' < |s.ops| ==> Refers(s, s.ops[o']) != Some(t) then CloseTemp(Finish(s, o), t) else s
  }

  /** Lock: returns once nobody else holds the socket. */
  predicate LockReturns(s: State, k: nat) {
    forall o :: 0 <= o < |s.ops| ==> !Holds(s.ops[o], k)
  }

  function StepCloseWait(s: State, o: nat): State
    requires Ready(s, o) && s.ops[o].pc.CloseWait?
  {
    var k := s.ops[o].sock;
    if LockReturns(s, k) then Goto(s, o, CloseSys).(socks := s.socks[k := Exclusive(o)]) else s
  }

  /** No: close(2) failed, and Close returns before it takes the socket off the inode's list. */
  function StepCloseSys(s: State, o: nat, c: Choice): State
    requires Ready(s, o) && s.ops[o].pc.CloseSys?
  {
    if c.Yes? then Goto(s, o, CloseRemove) else Finish(s, o).(failed := s.failed + {s.ops[o].sock})
  }

  function StepCloseRemove(s: State, o: nat): State
    requires Ready(s, o) && s.ops[o].pc.CloseRemove?
  {
    var k := s.ops[o].sock;
    if |s.open| == 1 then
      if s.open[0] != k then s.(panic := Untrack)
      else Goto(s, o, CloseLoad).(open := [], lastOp := Some(o))
    else if k !in s.open then s.(panic := Untrack)
    else Finish(s, o).(open := Removed(s.open, k))
  }

  function StepCloseLoad(s: State, o: nat): State
    requires Ready(s, o) && s.ops[o].pc.CloseLoad?
  {
    if s.heap[s.cur].Closed? then s.(panic := AlreadyClosed) else Goto(s, o, CloseCas(s.cur))
  }

  function StepCloseCas(s: State, o: nat): State
    requires Ready(s, o) && s.ops[o].pc.CloseCas?
  {
    var prev := s.ops[o].pc.prev;
    if s.cur != prev then Goto(s, o, CloseLoad)
    else match s.heap[prev].Bind()
         case None => Install(Finish(s, o), Closed).(installed := true)
         case Some(t) => Assume(Install(Goto(s, o, Shut(t, false)), Closed).(installed := true), t, o)
  }

  function Step(s: State, o: nat, c: Choice): State
    requires Ready(s, o)
  {
    match s.ops[o].pc
    case Start(_) => StepStart(s, o)
    case ConnectPrep(_) => StepConnectPrep(s, o, c)
    case ConnectCas(_, _, _) => StepConnectCas(s, o, c)
    case ConnectDial(_, _) => StepConnectDial(s, o, c)
    case ConnectTail => Finish(s, o)
    case BindPrep(_) => StepBindPrep(s, o, c)
    case BindSys(_, _, _) => StepBindSys(s, o, c)
    case BindFailed(_) => StepBindFailed(s, o, c)
    case BindCas(_, _, _) => StepBindCas(s, o)
    case BindUndo(_) => StepBindUndo(s, o)
    case ListenPrep(_) => StepListenPrep(s, o, c)
    case ListenTake(_, _) => StepListenTake(s, o)
    case ListenKill(_, _) => StepListenKill(s, o)
    case ListenCas(_) => StepListenCas(s, o)
    case CloseWait => StepCloseWait(s, o)
    case CloseSys => StepCloseSys(s, o, c)
    case CloseRemove => StepCloseRemove(s, o)
    case CloseLoad => StepCloseLoad(s, o)
    case CloseCas(_) => StepCloseCas(s, o)
    case Dialing(_, _) => StepDialing(s, o, c)
    case DialCas(_, _, _) => StepDialCas(s, o)
    case Shut(_, _) => StepShut(s, o)
    case Shutting(_) => StepShutting(s, o)
    case Finished => s
  }

  /** IncRef on the socket's descriptor: refused unless it is open. */
  function StepBegin(s: State, k: nat, kind: Kind): State
    requires k < |s.socks|
  {
    if s.socks[k].Open? then s.(ops := s.ops + [Op(Foreground, k, Start(kind))]) else s
  }

  /** ClosingIncRef on the socket's descriptor. */
  function StepBeginClose(s: State, k: nat): State
    requires k < |s.socks|
  {
    if s.socks[k].Open? then
      s.(ops := s.ops + [Op(Closer, k, CloseWait)], socks := s.socks[k := Closing(|s.ops|)])
    else s
  }

  /** A duplicate joins the inode while the call that duplicates holds an open socket of it. */
  function StepJoin(s: State, o: nat): State
    requires o < |s.ops|
  {
    if s.ops[o].role.Foreground? && s.ops[o].pc == Start(OtherCall) then
      s.(socks := s.socks + [Open], open := s.open + [|s.socks|])
    else s
  }

  function Apply(s: State, m: Move): State {
    if !s.panic.NoPanic? then s
    else match m
         case Begin(k, kind) => if k < |s.socks| then StepBegin(s, k, kind) else s
         case BeginClose(k) => if k < |s.socks| then StepBeginClose(s, k) else s
         case Join(o) => if o < |s.ops| then StepJoin(s, o) else s
         case Go(o, c) => if Ready(s, o) then Step(s, o, c) else s
  }
}
