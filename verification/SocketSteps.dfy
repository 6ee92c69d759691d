// What every step of the sockets of an inode keeps.
module SocketSteps {
  import opened Guards
  import opened Options
  import opened Sockets

  // ---- the invariant ----

  ghost predicate Fits(op: Op) {
    match op.pc
    case CloseWait => op.role.Closer?
    case CloseSys => op.role.Closer?
    case CloseRemove => op.role.Closer?
    case CloseLoad => op.role.Closer?
    case CloseCas(_) => op.role.Closer?
    case Dialing(_, _) => op.role.Background?
    case DialCas(_, _, _) => op.role.Background?
    case Shut(_, must) => must ==> op.role.Foreground?
    case Shutting(_) => true
    case Finished => true
    case _ => op.role.Foreground?
  }

  /** What an operation knows about the states it remembers. */
  ghost predicate Remembers(s: State, o: nat)
    requires Ready(s, o)
  {
    match s.ops[o].pc
    case ConnectPrep(h) => s.heap[h].Passive?
    case BindPrep(h) => s.heap[h].Passive?
    case BindFailed(h) => s.heap[h].Passive?
    case ListenPrep(h) => s.heap[h].Passive?
    case ConnectCas(h, t, own) => s.heap[h] == Passive(if own then None else Some(t))
    case BindSys(h, t, own) => s.heap[h] == Passive(if own then None else Some(t))
    case BindCas(h, t, own) => s.heap[h] == Passive(if own then None else Some(t))
    case ListenTake(h, t) => s.heap[h] == Passive(Some(t))
    case ListenKill(h, t) => s.heap[h] == Passive(Some(t))
    case ListenCas(h) => s.heap[h].Passive? && (s.heap[h].bind.Some? ==> s.temps[s.heap[h].bind.value].closing)
    case ConnectDial(h, t) => s.heap[h] == Connecting(t)
    case Dialing(h, t) => s.heap[h] == Connecting(t)
    case DialCas(h, t, next) => s.heap[h] == Connecting(t) && (next.Connected? || next == Passive(Some(t)))
    case CloseCas(h) => !s.heap[h].Closed?
    case _ => true
  }

  /** A temporary socket nobody else has seen. */
  function Owns(op: Op): Option<nat> {
    match op.pc
    case ConnectCas(_, t, own) => if own then Some(t) else None
    case BindSys(_, t, own) => if own then Some(t) else None
    case BindCas(_, t, own) => if own then Some(t) else None
    case BindUndo(t) => Some(t)
    case Shut(t, _) => if op.role.Foreground? then Some(t) else None
    case _ => None
  }

  /** A temporary socket the operation is about to close(2), having won its ClosingIncRef. */
  function Kills(op: Op): Option<nat> {
    match op.pc
    case ListenKill(_, t) => Some(t)
    case Shutting(t) => Some(t)
    case _ => None
  }

  /** A temporary socket the operation holds in its hands. */
  function Keeps(op: Op): Option<nat> {
    if op.pc.Shut? then Some(op.pc.temp) else Owns(op)
  }

  ghost predicate HandlesTemps(s: State, o: nat)
    requires Ready(s, o)
  {
    var op := s.ops[o];
    Uses(op.pc).Some? ==>
      var temp := s.temps[Uses(op.pc).value];
      if Owns(op).Some? then !temp.closing && temp.closes == 0 && !temp.shared && temp.owner == ByOp(o)
      else if Kills(op).Some? then
        temp.closing && temp.closes == 0 && temp.owner == ByOp(o) && (temp.shared || op.role.Foreground?)
      else temp.shared
  }

  ghost predicate HoldsSocket(s: State, o: nat)
    requires Ready(s, o)
  {
    var op := s.ops[o];
    var phase := s.socks[op.sock];
    && (op.role.Foreground? && Live(op) ==> phase.Open? || phase.Closing?)
    && (op.role.Closer? && Live(op) ==> phase == if op.pc.CloseWait? then Closing(o) else Exclusive(o))
    && (op.pc.CloseSys? || op.pc.CloseRemove? ==> op.sock in s.open)
    && (op.pc.CloseLoad? || op.pc.CloseCas? ==> s.lastOp == Some(o) && !s.installed)
  }

  ghost predicate TempOk(s: State, t: nat)
    requires t < |s.temps| && s.cur < |s.heap|
  {
    var temp := s.temps[t];
    && temp.closes <= 1
    && (temp.closes == 1 && temp.shared ==> temp.closing)
    && (temp.closes == 0 ==>
          match temp.owner
          case InState => !temp.closing && temp.shared && s.heap[s.cur].Bind() == Some(t)
          case ByOp(o) => o < |s.ops| && (if temp.closing then Kills(s.ops[o]) else Keeps(s.ops[o])) == Some(t))
  }

  ghost predicate ListOk(s: State)
    requires s.cur < |s.heap|
  {
    && Distinct(s.open)
    && (forall k :: k in s.open ==> k < |s.socks|)
    && (forall k :: 0 <= k < |s.socks| && (s.socks[k].Open? || s.socks[k].Closing?) ==> k in s.open)
    && (s.open == [] <==> s.lastOp.Some?)
    && (s.heap[s.cur].Closed? <==> s.installed)
    && (s.installed ==> s.lastOp.Some?)
    && (s.lastOp.Some? && !s.installed ==>
          s.lastOp.value < |s.ops| && (s.ops[s.lastOp.value].pc.CloseLoad? || s.ops[s.lastOp.value].pc.CloseCas?))
  }

  ghost predicate OpOk(s: State, o: nat) {
    Ready(s, o) && Fits(s.ops[o]) && Remembers(s, o) && HandlesTemps(s, o) && HoldsSocket(s, o)
  }

  ghost predicate HeapOk(s: State) {
    forall h :: 0 <= h < |s.heap| && s.heap[h].Bind().Some? ==>
      s.heap[h].Bind().value < |s.temps| && s.temps[s.heap[h].Bind().value].shared
  }

  ghost predicate Common(s: State) {
    s.panic.NoPanic? && s.cur < |s.heap| && ListOk(s) && HeapOk(s)
  }

  ghost predicate Inv(s: State) {
    && s.panic.NoPanic? && s.cur < |s.heap| && ListOk(s) && HeapOk(s)
    && (forall o :: 0 <= o < |s.ops| ==> OpOk(s, o))
    && (forall t :: 0 <= t < |s.temps| ==> TempOk(s, t))
  }

  // ---- what one operation's step leaves alone ----

  ghost predicate TempQuiet(temp: Temp, temp': Temp, o: nat) {
    temp' == temp || (
      && (temp.shared || temp.owner == ByOp(o)) && (temp.closing && temp.closes == 0 ==> temp.owner == ByOp(o))
      && (temp.shared ==> temp'.shared) && (temp.closing ==> temp'.closing))
  }

  ghost predicate SockQuiet(s: State, s': State, k: nat, o: nat)
    requires k < |s.socks| <= |s'.socks|
  {
    s'.socks[k] == s.socks[k] || ((s.socks[k] == Closing(o) || s.socks[k] == Exclusive(o)) && LockReturns(s, k))
  }

  /** As far as operations other than o can tell, s' is s. */
  ghost predicate Quiet(s: State, s': State, o: nat)
    requires o < |s.ops|
  {
    && |s.ops| <= |s'.ops| <= |s.ops| + 1 && (forall o' :: 0 <= o' < |s.ops| && o' != o ==> s'.ops[o'] == s.ops[o'])
    && s'.ops[o].role == s.ops[o].role && s'.ops[o].sock == s.ops[o].sock
    && (|s'.ops| > |s.ops| ==> s'.ops[|s.ops|].role.Background?)
    && |s.heap| <= |s'.heap| && (forall h :: 0 <= h < |s.heap| ==> s'.heap[h] == s.heap[h])
    && |s.temps| <= |s'.temps| && (forall t :: 0 <= t < |s.temps| ==> TempQuiet(s.temps[t], s'.temps[t], o))
    && |s.socks| <= |s'.socks| && (forall k :: 0 <= k < |s.socks| ==> SockQuiet(s, s', k, o))
    && (forall k :: k in s.open ==> k in s'.open || (k == s.ops[o].sock && k < |s.socks| && s.socks[k] == Exclusive(o)))
    && ((s'.lastOp == s.lastOp && s'.installed == s.installed) || s.lastOp == None || s.lastOp == Some(o))
  }

  lemma OneOther(s: State, s': State, o: nat, o': nat)
    requires Inv(s) && s'.cur < |s'.heap| && o < |s.ops| && Quiet(s, s', o) && o' < |s.ops| && o' != o
    ensures OpOk(s', o')
  {
    assert OpOk(s, o');
    OtherRemembers(s, s', o, o');
    OtherHolds(s, s', o, o');
  }

  lemma OtherRemembers(s: State, s': State, o: nat, o': nat)
    requires OpOk(s, o') && HeapOk(s) && s'.cur < |s'.heap| && o < |s.ops| && Quiet(s, s', o) && o' < |s.ops| && o' != o
    ensures Ready(s', o') && Fits(s'.ops[o']) && Remembers(s', o') && HandlesTemps(s', o')
  {
    hide HoldsSocket, SockQuiet;
    var op := s.ops[o'];
    assert s'.ops[o'] == op;
    if Saw(op.pc).Some? { assert s'.heap[Saw(op.pc).value] == s.heap[Saw(op.pc).value]; }
    if Uses(op.pc).Some? { assert TempQuiet(s.temps[Uses(op.pc).value], s'.temps[Uses(op.pc).value], o); }
    if op.pc.ListenCas? && s.heap[op.pc.prev].Bind().Some? {
      var t := s.heap[op.pc.prev].Bind().value;
      assert TempQuiet(s.temps[t], s'.temps[t], o);
    }
  }

  lemma OtherHolds(s: State, s': State, o: nat, o': nat)
    requires OpOk(s, o') && o < |s.ops| && Quiet(s, s', o) && o' < |s.ops| && o' != o && Ready(s', o')
    ensures HoldsSocket(s', o')
  {
    hide Remembers, HandlesTemps, TempQuiet;
    var op := s.ops[o'];
    assert s'.ops[o'] == op && SockQuiet(s, s', op.sock, o);
    assert op.role.Foreground? && Live(op) ==> Holds(op, op.sock);
  }

  lemma Others(s: State, s': State, o: nat)
    requires Inv(s) && s'.cur < |s'.heap| && o < |s.ops| && Quiet(s, s', o)
    ensures forall o' :: 0 <= o' < |s.ops| && o' != o ==> OpOk(s', o')
  {
    forall o' | 0 <= o' < |s.ops| && o' != o ensures OpOk(s', o') {
      OneOther(s, s', o, o');
    }
  }

  /** Nobody holds a socket whose closer's Lock has returned. */
  lemma NobodyHolds(s: State, k: nat)
    requires Inv(s) && k < |s.socks| && (s.socks[k].Exclusive? || s.socks[k].Done?)
    ensures LockReturns(s, k)
  {
    forall o | 0 <= o < |s.ops| ensures !Holds(s.ops[o], k) {
      assert OpOk(s, o);
    }
  }

  // ---- every step keeps the invariant ----

  lemma StartReturnsKeeps(s: State, o: nat)
    requires Inv(s) && OpOk(s, o) && s.ops[o].pc.Start? && StepStart(s, o) == Finish(s, o)
    ensures Inv(StepStart(s, o)) && Quiet(s, StepStart(s, o), o)
  {
    TailKeeps(s, o);
  }

  lemma StartProceedsKeepsTemp(s: State, o: nat, t: nat)
    requires Inv(s) && OpOk(s, o) && s.ops[o].pc.Start? && s.heap[s.cur].Passive? && !s.ops[o].pc.kind.OtherCall?
    requires t < |StepStart(s, o).temps| && (t < |s.temps| ==> TempOk(s, t))
    ensures TempOk(StepStart(s, o), t)
  {
  }

  lemma StartProceedsKeeps(s: State, o: nat)
    requires Inv(s) && OpOk(s, o) && s.ops[o].pc.Start? && s.heap[s.cur].Passive? && !s.ops[o].pc.kind.OtherCall?
    ensures Inv(StepStart(s, o)) && Quiet(s, StepStart(s, o), o)
  {
    hide TempOk;
    var s' := StepStart(s, o);
    Others(s, s', o);
    forall t | 0 <= t < |s'.temps| ensures TempOk(s', t) {
      StartProceedsKeepsTemp(s, o, t);
    }
  }

  lemma ConnectPrepOwn(s: State, o: nat, c: Choice)
    requires Common(s) && OpOk(s, o) && s.ops[o].pc.ConnectPrep?
    ensures var s' := StepConnectPrep(s, o, c);
            OpOk(s', o) && (|s'.ops| > |s.ops| ==> OpOk(s', |s.ops|))
  {
    hide ListOk;
  }

  lemma ConnectPrepQuiet(s: State, o: nat, c: Choice)
    requires Common(s) && OpOk(s, o) && s.ops[o].pc.ConnectPrep?
    ensures var s' := StepConnectPrep(s, o, c);
            s'.panic.NoPanic? && s'.cur < |s'.heap| && Quiet(s, s', o)
  {
  }

  lemma ConnectPrepLists(s: State, o: nat, c: Choice)
    requires Common(s) && OpOk(s, o) && s.ops[o].pc.ConnectPrep?
    ensures var s' := StepConnectPrep(s, o, c);
            s'.cur < |s'.heap| && ListOk(s') && HeapOk(s')
  {
    hide HandlesTemps;
  }

  lemma ConnectPrepTemp(s: State, o: nat, c: Choice, t: nat)
    requires Common(s) && OpOk(s, o) && s.ops[o].pc.ConnectPrep?
    requires t < |StepConnectPrep(s, o, c).temps| && (t < |s.temps| ==> TempOk(s, t))
    ensures StepConnectPrep(s, o, c).cur < |StepConnectPrep(s, o, c).heap| && TempOk(StepConnectPrep(s, o, c), t)
  {
    hide ListOk, HoldsSocket;
  }

  lemma ConnectPrepKeeps(s: State, o: nat, c: Choice)
    requires Inv(s) && OpOk(s, o) && s.ops[o].pc.ConnectPrep?
    ensures Inv(StepConnectPrep(s, o, c)) && Quiet(s, StepConnectPrep(s, o, c), o)
  {
    var s' := StepConnectPrep(s, o, c);
    hide StepConnectPrep, TempOk, OpOk, ListOk, HeapOk;
    ConnectPrepOwn(s, o, c);
    ConnectPrepQuiet(s, o, c);
    ConnectPrepLists(s, o, c);
    Others(s, s', o);
    forall t | 0 <= t < |s'.temps| ensures TempOk(s', t) {
      ConnectPrepTemp(s, o, c, t);
    }
  }

  lemma ConnectDialOwn(s: State, o: nat, c: Choice)
    requires Common(s) && OpOk(s, o) && s.ops[o].pc.ConnectDial?
    ensures var s' := StepConnectDial(s, o, c);
            OpOk(s', o) && (|s'.ops| > |s.ops| ==> OpOk(s', |s.ops|))
  {
    hide ListOk;
  }

  lemma ConnectDialQuiet(s: State, o: nat, c: Choice)
    requires Common(s) && OpOk(s, o) && s.ops[o].pc.ConnectDial?
    ensures var s' := StepConnectDial(s, o, c);
            s'.panic.NoPanic? && s'.cur < |s'.heap| && Quiet(s, s', o)
  {
  }

  lemma ConnectDialLists(s: State, o: nat, c: Choice)
    requires Common(s) && OpOk(s, o) && s.ops[o].pc.ConnectDial?
    ensures var s' := StepConnectDial(s, o, c);
            s'.cur < |s'.heap| && ListOk(s') && HeapOk(s')
  {
    hide HandlesTemps;
  }

  lemma ConnectDialTemp(s: State, o: nat, c: Choice, t: nat)
    requires Common(s) && OpOk(s, o) && s.ops[o].pc.ConnectDial?
    requires t < |StepConnectDial(s, o, c).temps| && (t < |s.temps| ==> TempOk(s, t))
    ensures StepConnectDial(s, o, c).cur < |StepConnectDial(s, o, c).heap| && TempOk(StepConnectDial(s, o, c), t)
  {
    hide ListOk, HoldsSocket;
  }

  lemma ConnectDialKeeps(s: State, o: nat, c: Choice)
    requires Inv(s) && OpOk(s, o) && s.ops[o].pc.ConnectDial?
    ensures Inv(StepConnectDial(s, o, c)) && Quiet(s, StepConnectDial(s, o, c), o)
  {
    var s' := StepConnectDial(s, o, c);
    hide StepConnectDial, TempOk, OpOk, ListOk, HeapOk;
    ConnectDialOwn(s, o, c);
    ConnectDialQuiet(s, o, c);
    ConnectDialLists(s, o, c);
    Others(s, s', o);
    forall t | 0 <= t < |s'.temps| ensures TempOk(s', t) {
      ConnectDialTemp(s, o, c, t);
    }
  }

  lemma DialingOwn(s: State, o: nat, c: Choice)
    requires Common(s) && OpOk(s, o) && s.ops[o].pc.Dialing?
    ensures var s' := StepDialing(s, o, c);
            OpOk(s', o) && (|s'.ops| > |s.ops| ==> OpOk(s', |s.ops|))
  {
    hide ListOk;
  }

  lemma DialingQuiet(s: State, o: nat, c: Choice)
    requires Common(s) && OpOk(s, o) && s.ops[o].pc.Dialing?
    ensures var s' := StepDialing(s, o, c);
            s'.panic.NoPanic? && s'.cur < |s'.heap| && Quiet(s, s', o)
  {
  }

  lemma DialingLists(s: State, o: nat, c: Choice)
    requires Common(s) && OpOk(s, o) && s.ops[o].pc.Dialing?
    ensures var s' := StepDialing(s, o, c);
            s'.cur < |s'.heap| && ListOk(s') && HeapOk(s')
  {
    hide HandlesTemps;
  }

  lemma DialingTemp(s: State, o: nat, c: Choice, t: nat)
    requires Common(s) && OpOk(s, o) && s.ops[o].pc.Dialing?
    requires t < |StepDialing(s, o, c).temps| && (t < |s.temps| ==> TempOk(s, t))
    ensures StepDialing(s, o, c).cur < |StepDialing(s, o, c).heap| && TempOk(StepDialing(s, o, c), t)
  {
    hide ListOk, HoldsSocket;
  }

  lemma DialingKeeps(s: State, o: nat, c: Choice)
    requires Inv(s) && OpOk(s, o) && s.ops[o].pc.Dialing?
    ensures Inv(StepDialing(s, o, c)) && Quiet(s, StepDialing(s, o, c), o)
  {
    var s' := StepDialing(s, o, c);
    hide StepDialing, TempOk, OpOk, ListOk, HeapOk;
    DialingOwn(s, o, c);
    DialingQuiet(s, o, c);
    DialingLists(s, o, c);
    Others(s, s', o);
    forall t | 0 <= t < |s'.temps| ensures TempOk(s', t) {
      DialingTemp(s, o, c, t);
    }
  }

  lemma BindPrepOwn(s: State, o: nat, c: Choice)
    requires Common(s) && OpOk(s, o) && s.ops[o].pc.BindPrep?
    ensures var s' := StepBindPrep(s, o, c);
            OpOk(s', o) && (|s'.ops| > |s.ops| ==> OpOk(s', |s.ops|))
  {
    hide ListOk;
    var h := s.ops[o].pc.prev;
    assert s.heap[h].Bind().Some? ==> s.temps[s.heap[h].Bind().value].shared;
  }

  lemma BindPrepQuiet(s: State, o: nat, c: Choice)
    requires Common(s) && OpOk(s, o) && s.ops[o].pc.BindPrep?
    ensures var s' := StepBindPrep(s, o, c);
            s'.panic.NoPanic? && s'.cur < |s'.heap| && Quiet(s, s', o)
  {
  }

  lemma BindPrepLists(s: State, o: nat, c: Choice)
    requires Common(s) && OpOk(s, o) && s.ops[o].pc.BindPrep?
    ensures var s' := StepBindPrep(s, o, c);
            s'.cur < |s'.heap| && ListOk(s') && HeapOk(s')
  {
  }

  lemma BindPrepTemp(s: State, o: nat, c: Choice, t: nat)
    requires Common(s) && OpOk(s, o) && s.ops[o].pc.BindPrep?
    requires t < |StepBindPrep(s, o, c).temps| && (t < |s.temps| ==> TempOk(s, t))
    ensures StepBindPrep(s, o, c).cur < |StepBindPrep(s, o, c).heap| && TempOk(StepBindPrep(s, o, c), t)
  {
    hide ListOk, HoldsSocket;
  }

  lemma BindPrepKeeps(s: State, o: nat, c: Choice)
    requires Inv(s) && OpOk(s, o) && s.ops[o].pc.BindPrep?
    ensures Inv(StepBindPrep(s, o, c)) && Quiet(s, StepBindPrep(s, o, c), o)
  {
    var s' := StepBindPrep(s, o, c);
    hide StepBindPrep, TempOk, OpOk, ListOk, HeapOk;
    BindPrepOwn(s, o, c);
    BindPrepQuiet(s, o, c);
    BindPrepLists(s, o, c);
    Others(s, s', o);
    forall t | 0 <= t < |s'.temps| ensures TempOk(s', t) {
      BindPrepTemp(s, o, c, t);
    }
  }

  lemma BindSysOwn(s: State, o: nat, c: Choice)
    requires Common(s) && OpOk(s, o) && s.ops[o].pc.BindSys?
    ensures var s' := StepBindSys(s, o, c);
            OpOk(s', o) && (|s'.ops| > |s.ops| ==> OpOk(s', |s.ops|))
  {
    hide ListOk;
  }

  lemma BindSysQuiet(s: State, o: nat, c: Choice)
    requires Common(s) && OpOk(s, o) && s.ops[o].pc.BindSys?
    ensures var s' := StepBindSys(s, o, c);
            s'.panic.NoPanic? && s'.cur < |s'.heap| && Quiet(s, s', o)
  {
  }

  lemma BindSysLists(s: State, o: nat, c: Choice)
    requires Common(s) && OpOk(s, o) && s.ops[o].pc.BindSys?
    ensures var s' := StepBindSys(s, o, c);
            s'.cur < |s'.heap| && ListOk(s') && HeapOk(s')
  {
    hide HandlesTemps;
  }

  lemma BindSysTemp(s: State, o: nat, c: Choice, t: nat)
    requires Common(s) && OpOk(s, o) && s.ops[o].pc.BindSys?
    requires t < |StepBindSys(s, o, c).temps| && (t < |s.temps| ==> TempOk(s, t))
    ensures StepBindSys(s, o, c).cur < |StepBindSys(s, o, c).heap| && TempOk(StepBindSys(s, o, c), t)
  {
    hide ListOk, HoldsSocket;
  }

  lemma BindSysKeeps(s: State, o: nat, c: Choice)
    requires Inv(s) && OpOk(s, o) && s.ops[o].pc.BindSys?
    ensures Inv(StepBindSys(s, o, c)) && Quiet(s, StepBindSys(s, o, c), o)
  {
    var s' := StepBindSys(s, o, c);
    hide StepBindSys, TempOk, OpOk, ListOk, HeapOk;
    BindSysOwn(s, o, c);
    BindSysQuiet(s, o, c);
    BindSysLists(s, o, c);
    Others(s, s', o);
    forall t | 0 <= t < |s'.temps| ensures TempOk(s', t) {
      BindSysTemp(s, o, c, t);
    }
  }

  lemma BindFailedOwn(s: State, o: nat, c: Choice)
    requires Common(s) && OpOk(s, o) && s.ops[o].pc.BindFailed?
    ensures var s' := StepBindFailed(s, o, c);
            OpOk(s', o) && (|s'.ops| > |s.ops| ==> OpOk(s', |s.ops|))
  {
    hide ListOk;
  }

  lemma BindFailedQuiet(s: State, o: nat, c: Choice)
    requires Common(s) && OpOk(s, o) && s.ops[o].pc.BindFailed?
    ensures var s' := StepBindFailed(s, o, c);
            s'.panic.NoPanic? && s'.cur < |s'.heap| && Quiet(s, s', o)
  {
  }

  lemma BindFailedLists(s: State, o: nat, c: Choice)
    requires Common(s) && OpOk(s, o) && s.ops[o].pc.BindFailed?
    ensures var s' := StepBindFailed(s, o, c);
            s'.cur < |s'.heap| && ListOk(s') && HeapOk(s')
  {
  }

  lemma BindFailedTemp(s: State, o: nat, c: Choice, t: nat)
    requires Common(s) && OpOk(s, o) && s.ops[o].pc.BindFailed?
    requires t < |StepBindFailed(s, o, c).temps| && (t < |s.temps| ==> TempOk(s, t))
    ensures StepBindFailed(s, o, c).cur < |StepBindFailed(s, o, c).heap| && TempOk(StepBindFailed(s, o, c), t)
  {
    hide ListOk, HoldsSocket;
  }

  lemma BindFailedKeeps(s: State, o: nat, c: Choice)
    requires Inv(s) && OpOk(s, o) && s.ops[o].pc.BindFailed?
    ensures Inv(StepBindFailed(s, o, c)) && Quiet(s, StepBindFailed(s, o, c), o)
  {
    var s' := StepBindFailed(s, o, c);
    hide StepBindFailed, TempOk, OpOk, ListOk, HeapOk;
    BindFailedOwn(s, o, c);
    BindFailedQuiet(s, o, c);
    BindFailedLists(s, o, c);
    Others(s, s', o);
    forall t | 0 <= t < |s'.temps| ensures TempOk(s', t) {
      BindFailedTemp(s, o, c, t);
    }
  }

  lemma BindUndoOwn(s: State, o: nat)
    requires Common(s) && OpOk(s, o) && s.ops[o].pc.BindUndo?
    requires TempOk(s, s.ops[o].pc.temp)
    ensures OpOk(StepBindUndo(s, o), o)
  {
    hide ListOk;
  }

  lemma BindUndoQuiet(s: State, o: nat)
    requires Common(s) && OpOk(s, o) && s.ops[o].pc.BindUndo?
    requires TempOk(s, s.ops[o].pc.temp)
    ensures var s' := StepBindUndo(s, o);
            |s'.ops| == |s.ops| && s'.panic.NoPanic? && s'.cur < |s'.heap| && Quiet(s, s', o)
  {
  }

  lemma BindUndoLists(s: State, o: nat)
    requires Common(s) && OpOk(s, o) && s.ops[o].pc.BindUndo?
    requires TempOk(s, s.ops[o].pc.temp)
    ensures var s' := StepBindUndo(s, o);
            s'.cur < |s'.heap| && ListOk(s') && HeapOk(s')
  {
  }

  lemma BindUndoTemp(s: State, o: nat, t: nat)
    requires Common(s) && OpOk(s, o) && s.ops[o].pc.BindUndo?
    requires TempOk(s, s.ops[o].pc.temp)
    requires t < |s.temps| && TempOk(s, t)
    ensures var s' := StepBindUndo(s, o);
            t < |s'.temps| == |s.temps| && s'.cur < |s'.heap| && TempOk(s', t)
  {
    hide ListOk, HoldsSocket;
  }

  lemma BindUndoKeeps(s: State, o: nat)
    requires Inv(s) && OpOk(s, o) && s.ops[o].pc.BindUndo?
    ensures Inv(StepBindUndo(s, o)) && Quiet(s, StepBindUndo(s, o), o)
  {
    var s' := StepBindUndo(s, o);
    assert TempOk(s, s.ops[o].pc.temp);
    assert |s'.temps| == |s.temps|;
    hide StepBindUndo, TempOk, OpOk, ListOk, HeapOk;
    BindUndoOwn(s, o);
    BindUndoQuiet(s, o);
    BindUndoLists(s, o);
    Others(s, s', o);
    forall t | 0 <= t < |s'.temps| ensures TempOk(s', t) {
      assert TempOk(s, t);
      BindUndoTemp(s, o, t);
    }
  }

  lemma ListenPrepOwn(s: State, o: nat, c: Choice)
    requires Common(s) && OpOk(s, o) && s.ops[o].pc.ListenPrep?
    ensures var s' := StepListenPrep(s, o, c);
            OpOk(s', o) && (|s'.ops| > |s.ops| ==> OpOk(s', |s.ops|))
  {
    hide ListOk;
  }

  lemma ListenPrepQuiet(s: State, o: nat, c: Choice)
    requires Common(s) && OpOk(s, o) && s.ops[o].pc.ListenPrep?
    ensures var s' := StepListenPrep(s, o, c);
            s'.panic.NoPanic? && s'.cur < |s'.heap| && Quiet(s, s', o)
  {
  }

  lemma ListenPrepLists(s: State, o: nat, c: Choice)
    requires Common(s) && OpOk(s, o) && s.ops[o].pc.ListenPrep?
    ensures var s' := StepListenPrep(s, o, c);
            s'.cur < |s'.heap| && ListOk(s') && HeapOk(s')
  {
    hide HandlesTemps;
  }

  lemma ListenPrepTemp(s: State, o: nat, c: Choice, t: nat)
    requires Common(s) && OpOk(s, o) && s.ops[o].pc.ListenPrep?
    requires t < |StepListenPrep(s, o, c).temps| && (t < |s.temps| ==> TempOk(s, t))
    ensures StepListenPrep(s, o, c).cur < |StepListenPrep(s, o, c).heap| && TempOk(StepListenPrep(s, o, c), t)
  {
    hide ListOk, HoldsSocket;
  }

  lemma ListenPrepKeeps(s: State, o: nat, c: Choice)
    requires Inv(s) && OpOk(s, o) && s.ops[o].pc.ListenPrep?
    ensures Inv(StepListenPrep(s, o, c)) && Quiet(s, StepListenPrep(s, o, c), o)
  {
    var s' := StepListenPrep(s, o, c);
    hide StepListenPrep, TempOk, OpOk, ListOk, HeapOk;
    ListenPrepOwn(s, o, c);
    ListenPrepQuiet(s, o, c);
    ListenPrepLists(s, o, c);
    Others(s, s', o);
    forall t | 0 <= t < |s'.temps| ensures TempOk(s', t) {
      ListenPrepTemp(s, o, c, t);
    }
  }

  lemma ListenTakeOwn(s: State, o: nat)
    requires Common(s) && OpOk(s, o) && s.ops[o].pc.ListenTake?
    requires TempOk(s, s.ops[o].pc.temp)
    ensures var s' := StepListenTake(s, o);
            OpOk(s', o) && (|s'.ops| > |s.ops| ==> OpOk(s', |s.ops|))
  {
    hide ListOk;
  }

  lemma ListenTakeQuiet(s: State, o: nat)
    requires Common(s) && OpOk(s, o) && s.ops[o].pc.ListenTake?
    requires TempOk(s, s.ops[o].pc.temp)
    ensures var s' := StepListenTake(s, o);
            s'.panic.NoPanic? && s'.cur < |s'.heap| && Quiet(s, s', o)
  {
  }

  lemma ListenTakeLists(s: State, o: nat)
    requires Common(s) && OpOk(s, o) && s.ops[o].pc.ListenTake?
    ensures var s' := StepListenTake(s, o);
            s'.cur < |s'.heap| && ListOk(s') && HeapOk(s')
  {
    hide HandlesTemps;
  }

  lemma ListenTakeTemp(s: State, o: nat, t: nat)
    requires Common(s) && OpOk(s, o) && s.ops[o].pc.ListenTake?
    requires t < |StepListenTake(s, o).temps| && (t < |s.temps| ==> TempOk(s, t))
    requires TempOk(s, s.ops[o].pc.temp)
    ensures StepListenTake(s, o).cur < |StepListenTake(s, o).heap| && TempOk(StepListenTake(s, o), t)
  {
    hide ListOk, HoldsSocket;
  }

  lemma ListenTakeKeeps(s: State, o: nat)
    requires Inv(s) && OpOk(s, o) && s.ops[o].pc.ListenTake?
    ensures Inv(StepListenTake(s, o)) && Quiet(s, StepListenTake(s, o), o)
  {
    var s' := StepListenTake(s, o);
    assert TempOk(s, s.ops[o].pc.temp);
    hide StepListenTake, TempOk, OpOk, ListOk, HeapOk;
    ListenTakeOwn(s, o);
    ListenTakeQuiet(s, o);
    ListenTakeLists(s, o);
    Others(s, s', o);
    forall t | 0 <= t < |s'.temps| ensures TempOk(s', t) {
      ListenTakeTemp(s, o, t);
    }
  }

  lemma ListenKillKeepsTemp(s: State, o: nat, t: nat)
    requires Inv(s) && OpOk(s, o) && s.ops[o].pc.ListenKill?
    requires t < |StepListenKill(s, o).temps| && (t < |s.temps| ==> TempOk(s, t))
    ensures TempOk(StepListenKill(s, o), t)
  {
  }

  lemma ListenKillKeeps(s: State, o: nat)
    requires Inv(s) && OpOk(s, o) && s.ops[o].pc.ListenKill?
    ensures Inv(StepListenKill(s, o)) && Quiet(s, StepListenKill(s, o), o)
  {
    hide TempOk;
    var s' := StepListenKill(s, o);
    Others(s, s', o);
    forall t | 0 <= t < |s'.temps| ensures TempOk(s', t) {
      ListenKillKeepsTemp(s, o, t);
    }
  }

  lemma ListenCasOwn(s: State, o: nat)
    requires Common(s) && OpOk(s, o) && s.ops[o].pc.ListenCas?
    ensures var s' := StepListenCas(s, o);
            OpOk(s', o) && (|s'.ops| > |s.ops| ==> OpOk(s', |s.ops|))
  {
    hide ListOk;
  }

  lemma ListenCasQuiet(s: State, o: nat)
    requires Common(s) && OpOk(s, o) && s.ops[o].pc.ListenCas?
    ensures var s' := StepListenCas(s, o);
            s'.panic.NoPanic? && s'.cur < |s'.heap| && Quiet(s, s', o)
  {
  }

  lemma ListenCasLists(s: State, o: nat)
    requires Common(s) && OpOk(s, o) && s.ops[o].pc.ListenCas?
    ensures var s' := StepListenCas(s, o);
            s'.cur < |s'.heap| && ListOk(s') && HeapOk(s')
  {
  }

  lemma ListenCasTemp(s: State, o: nat, t: nat)
    requires Common(s) && OpOk(s, o) && s.ops[o].pc.ListenCas?
    requires t < |StepListenCas(s, o).temps| && (t < |s.temps| ==> TempOk(s, t))
    ensures StepListenCas(s, o).cur < |StepListenCas(s, o).heap| && TempOk(StepListenCas(s, o), t)
  {
    hide ListOk, HoldsSocket;
  }

  lemma ListenCasKeeps(s: State, o: nat)
    requires Inv(s) && OpOk(s, o) && s.ops[o].pc.ListenCas?
    ensures Inv(StepListenCas(s, o)) && Quiet(s, StepListenCas(s, o), o)
  {
    var s' := StepListenCas(s, o);
    hide StepListenCas, TempOk, OpOk, ListOk, HeapOk;
    ListenCasOwn(s, o);
    ListenCasQuiet(s, o);
    ListenCasLists(s, o);
    Others(s, s', o);
    forall t | 0 <= t < |s'.temps| ensures TempOk(s', t) {
      ListenCasTemp(s, o, t);
    }
  }

  lemma ShuttingOwn(s: State, o: nat)
    requires Common(s) && OpOk(s, o) && s.ops[o].pc.Shutting?
    ensures var s' := StepShutting(s, o);
            OpOk(s', o) && (|s'.ops| > |s.ops| ==> OpOk(s', |s.ops|))
  {
    hide ListOk;
  }

  lemma ShuttingQuiet(s: State, o: nat)
    requires Common(s) && OpOk(s, o) && s.ops[o].pc.Shutting?
    requires s.ops[o].role.Closer? ==> LockReturns(s, s.ops[o].sock)
    ensures var s' := StepShutting(s, o);
            s'.panic.NoPanic? && s'.cur < |s'.heap| && Quiet(s, s', o)
  {
    if StepShutting(s, o) == s {
      QuietItself(s, o);
    } else {
      hide Refers;
      KillQuiet(s, o, s.ops[o].pc.temp);
    }
  }

  lemma KillQuiet(s: State, o: nat, t: nat)
    requires s.cur < |s.heap| && OpOk(s, o) && Kills(s.ops[o]) == Some(t)
    requires s.ops[o].role.Closer? ==> LockReturns(s, s.ops[o].sock)
    ensures t < |s.temps| && Quiet(s, CloseTemp(Finish(s, o), t), o)
  {
  }

  lemma ShuttingLists(s: State, o: nat)
    requires Common(s) && OpOk(s, o) && s.ops[o].pc.Shutting?
    ensures var s' := StepShutting(s, o);
            s'.cur < |s'.heap| && ListOk(s') && HeapOk(s')
  {
    hide HandlesTemps;
  }

  lemma ShuttingTemp(s: State, o: nat, t: nat)
    requires Common(s) && OpOk(s, o) && s.ops[o].pc.Shutting?
    requires t < |StepShutting(s, o).temps| && (t < |s.temps| ==> TempOk(s, t))
    ensures StepShutting(s, o).cur < |StepShutting(s, o).heap| && TempOk(StepShutting(s, o), t)
  {
    hide ListOk, HoldsSocket;
  }

  lemma ShuttingKeeps(s: State, o: nat)
    requires Inv(s) && OpOk(s, o) && s.ops[o].pc.Shutting?
    ensures Inv(StepShutting(s, o)) && Quiet(s, StepShutting(s, o), o)
  {
    var s' := StepShutting(s, o);
    if s.ops[o].role.Closer? { NobodyHolds(s, s.ops[o].sock); }
    hide StepShutting, TempOk, OpOk, ListOk, HeapOk;
    ShuttingOwn(s, o);
    ShuttingQuiet(s, o);
    ShuttingLists(s, o);
    Others(s, s', o);
    forall t | 0 <= t < |s'.temps| ensures TempOk(s', t) {
      ShuttingTemp(s, o, t);
    }
  }

  lemma CloseWaitKeepsTemp(s: State, o: nat, t: nat)
    requires Inv(s) && OpOk(s, o) && s.ops[o].pc.CloseWait?
    requires t < |StepCloseWait(s, o).temps| && (t < |s.temps| ==> TempOk(s, t))
    ensures TempOk(StepCloseWait(s, o), t)
  {
  }

  lemma CloseWaitKeeps(s: State, o: nat)
    requires Inv(s) && OpOk(s, o) && s.ops[o].pc.CloseWait?
    ensures Inv(StepCloseWait(s, o)) && Quiet(s, StepCloseWait(s, o), o)
  {
    hide TempOk;
    var s' := StepCloseWait(s, o);
    Others(s, s', o);
    forall t | 0 <= t < |s'.temps| ensures TempOk(s', t) {
      CloseWaitKeepsTemp(s, o, t);
    }
  }

  lemma CloseSysOwn(s: State, o: nat, c: Choice)
    requires Common(s) && OpOk(s, o) && s.ops[o].pc.CloseSys?
    ensures var s' := StepCloseSys(s, o, c);
            OpOk(s', o) && (|s'.ops| > |s.ops| ==> OpOk(s', |s.ops|))
  {
    hide ListOk;
  }

  lemma CloseSysQuiet(s: State, o: nat, c: Choice)
    requires Common(s) && OpOk(s, o) && s.ops[o].pc.CloseSys?
    requires s.ops[o].role.Closer? ==> LockReturns(s, s.ops[o].sock)
    ensures var s' := StepCloseSys(s, o, c);
            s'.panic.NoPanic? && s'.cur < |s'.heap| && Quiet(s, s', o)
  {
  }

  lemma CloseSysLists(s: State, o: nat, c: Choice)
    requires Common(s) && OpOk(s, o) && s.ops[o].pc.CloseSys?
    ensures var s' := StepCloseSys(s, o, c);
            s'.cur < |s'.heap| && ListOk(s') && HeapOk(s')
  {
    hide HandlesTemps;
  }

  lemma CloseSysTemp(s: State, o: nat, c: Choice, t: nat)
    requires Common(s) && OpOk(s, o) && s.ops[o].pc.CloseSys?
    requires t < |StepCloseSys(s, o, c).temps| && (t < |s.temps| ==> TempOk(s, t))
    ensures StepCloseSys(s, o, c).cur < |StepCloseSys(s, o, c).heap| && TempOk(StepCloseSys(s, o, c), t)
  {
    hide ListOk, HoldsSocket;
  }

  lemma CloseSysKeeps(s: State, o: nat, c: Choice)
    requires Inv(s) && OpOk(s, o) && s.ops[o].pc.CloseSys?
    ensures Inv(StepCloseSys(s, o, c)) && Quiet(s, StepCloseSys(s, o, c), o)
  {
    var s' := StepCloseSys(s, o, c);
    if s.ops[o].role.Closer? { NobodyHolds(s, s.ops[o].sock); }
    hide StepCloseSys, TempOk, OpOk, ListOk, HeapOk;
    CloseSysOwn(s, o, c);
    CloseSysQuiet(s, o, c);
    CloseSysLists(s, o, c);
    Others(s, s', o);
    forall t | 0 <= t < |s'.temps| ensures TempOk(s', t) {
      CloseSysTemp(s, o, c, t);
    }
  }

  lemma CloseLoadKeepsTemp(s: State, o: nat, t: nat)
    requires Inv(s) && OpOk(s, o) && s.ops[o].pc.CloseLoad?
    requires t < |StepCloseLoad(s, o).temps| && (t < |s.temps| ==> TempOk(s, t))
    ensures TempOk(StepCloseLoad(s, o), t)
  {
  }

  lemma CloseLoadKeeps(s: State, o: nat)
    requires Inv(s) && OpOk(s, o) && s.ops[o].pc.CloseLoad?
    ensures Inv(StepCloseLoad(s, o)) && Quiet(s, StepCloseLoad(s, o), o)
  {
    hide TempOk;
    var s' := StepCloseLoad(s, o);
    Others(s, s', o);
    forall t | 0 <= t < |s'.temps| ensures TempOk(s', t) {
      CloseLoadKeepsTemp(s, o, t);
    }
  }

  lemma ConnectCasWinsOwn(s: State, o: nat, c: Choice)
    requires Common(s) && OpOk(s, o) && s.ops[o].pc.ConnectCas? && s.cur == s.ops[o].pc.prev && (c.Yes? || !s.ops[o].pc.own)
    requires TempOk(s, s.ops[o].pc.temp)
    ensures var s' := StepConnectCas(s, o, c);
            OpOk(s', o) && (|s'.ops| > |s.ops| ==> OpOk(s', |s.ops|))
  {
    hide ListOk;
  }

  lemma ConnectCasWinsQuiet(s: State, o: nat, c: Choice)
    requires Common(s) && OpOk(s, o) && s.ops[o].pc.ConnectCas? && s.cur == s.ops[o].pc.prev && (c.Yes? || !s.ops[o].pc.own)
    requires TempOk(s, s.ops[o].pc.temp)
    ensures var s' := StepConnectCas(s, o, c);
            s'.panic.NoPanic? && s'.cur < |s'.heap| && Quiet(s, s', o)
  {
  }

  lemma ConnectCasWinsLists(s: State, o: nat, c: Choice)
    requires Common(s) && OpOk(s, o) && s.ops[o].pc.ConnectCas? && s.cur == s.ops[o].pc.prev && (c.Yes? || !s.ops[o].pc.own)
    ensures var s' := StepConnectCas(s, o, c);
            s'.cur < |s'.heap| && ListOk(s') && HeapOk(s')
  {
  }

  lemma ConnectCasWinsTemp(s: State, o: nat, c: Choice, t: nat)
    requires Common(s) && OpOk(s, o) && s.ops[o].pc.ConnectCas? && s.cur == s.ops[o].pc.prev && (c.Yes? || !s.ops[o].pc.own)
    requires t < |StepConnectCas(s, o, c).temps| && (t < |s.temps| ==> TempOk(s, t))
    requires TempOk(s, s.ops[o].pc.temp)
    ensures StepConnectCas(s, o, c).cur < |StepConnectCas(s, o, c).heap| && TempOk(StepConnectCas(s, o, c), t)
  {
    hide ListOk, HoldsSocket;
  }

  lemma ConnectCasWinsKeeps(s: State, o: nat, c: Choice)
    requires Inv(s) && OpOk(s, o) && s.ops[o].pc.ConnectCas? && s.cur == s.ops[o].pc.prev && (c.Yes? || !s.ops[o].pc.own)
    ensures Inv(StepConnectCas(s, o, c)) && Quiet(s, StepConnectCas(s, o, c), o)
  {
    var s' := StepConnectCas(s, o, c);
    assert TempOk(s, s.ops[o].pc.temp);
    hide StepConnectCas, TempOk, OpOk, ListOk, HeapOk;
    ConnectCasWinsOwn(s, o, c);
    ConnectCasWinsQuiet(s, o, c);
    ConnectCasWinsLists(s, o, c);
    Others(s, s', o);
    forall t | 0 <= t < |s'.temps| ensures TempOk(s', t) {
      ConnectCasWinsTemp(s, o, c, t);
    }
  }

  lemma ConnectCasLosesOwn(s: State, o: nat, c: Choice)
    requires Common(s) && OpOk(s, o) && s.ops[o].pc.ConnectCas?
    requires !(s.cur == s.ops[o].pc.prev && (c.Yes? || !s.ops[o].pc.own))
    requires TempOk(s, s.ops[o].pc.temp)
    ensures OpOk(StepConnectCas(s, o, c), o)
  {
    hide ListOk;
  }

  lemma ConnectCasLosesQuiet(s: State, o: nat, c: Choice)
    requires Common(s) && OpOk(s, o) && s.ops[o].pc.ConnectCas?
    requires !(s.cur == s.ops[o].pc.prev && (c.Yes? || !s.ops[o].pc.own))
    requires TempOk(s, s.ops[o].pc.temp)
    ensures var s' := StepConnectCas(s, o, c);
            |s'.ops| == |s.ops| && s'.panic.NoPanic? && s'.cur < |s'.heap| && Quiet(s, s', o)
  {
  }

  lemma ConnectCasLosesLists(s: State, o: nat, c: Choice)
    requires Common(s) && OpOk(s, o) && s.ops[o].pc.ConnectCas?
    requires !(s.cur == s.ops[o].pc.prev && (c.Yes? || !s.ops[o].pc.own))
    requires TempOk(s, s.ops[o].pc.temp)
    ensures var s' := StepConnectCas(s, o, c);
            s'.cur < |s'.heap| && ListOk(s') && HeapOk(s')
  {
  }

  lemma ConnectCasLosesTemp(s: State, o: nat, c: Choice, t: nat)
    requires Common(s) && OpOk(s, o) && s.ops[o].pc.ConnectCas?
    requires !(s.cur == s.ops[o].pc.prev && (c.Yes? || !s.ops[o].pc.own))
    requires TempOk(s, s.ops[o].pc.temp)
    requires t < |s.temps| && TempOk(s, t)
    ensures var s' := StepConnectCas(s, o, c);
            t < |s'.temps| == |s.temps| && s'.cur < |s'.heap| && TempOk(s', t)
  {
    hide ListOk, HoldsSocket;
  }

  lemma ConnectCasLosesKeeps(s: State, o: nat, c: Choice)
    requires Inv(s) && OpOk(s, o) && s.ops[o].pc.ConnectCas?
    requires !(s.cur == s.ops[o].pc.prev && (c.Yes? || !s.ops[o].pc.own))
    ensures Inv(StepConnectCas(s, o, c)) && Quiet(s, StepConnectCas(s, o, c), o)
  {
    var s' := StepConnectCas(s, o, c);
    assert TempOk(s, s.ops[o].pc.temp);
    assert |s'.temps| == |s.temps|;
    hide StepConnectCas, TempOk, OpOk, ListOk, HeapOk;
    ConnectCasLosesOwn(s, o, c);
    ConnectCasLosesQuiet(s, o, c);
    ConnectCasLosesLists(s, o, c);
    Others(s, s', o);
    forall t | 0 <= t < |s'.temps| ensures TempOk(s', t) {
      assert TempOk(s, t);
      ConnectCasLosesTemp(s, o, c, t);
    }
  }

  lemma DialCasLosesOwn(s: State, o: nat)
    requires Common(s) && OpOk(s, o) && s.ops[o].pc.DialCas?
    requires s.cur != s.ops[o].pc.mid
    requires TempOk(s, s.ops[o].pc.temp)
    ensures OpOk(StepDialCas(s, o), o)
  {
    hide ListOk;
  }

  lemma DialCasLosesQuiet(s: State, o: nat)
    requires Common(s) && OpOk(s, o) && s.ops[o].pc.DialCas?
    requires s.cur != s.ops[o].pc.mid
    requires TempOk(s, s.ops[o].pc.temp)
    ensures var s' := StepDialCas(s, o);
            |s'.ops| == |s.ops| && s'.panic.NoPanic? && s'.cur < |s'.heap| && Quiet(s, s', o)
  {
  }

  lemma DialCasLosesLists(s: State, o: nat)
    requires Common(s) && OpOk(s, o) && s.ops[o].pc.DialCas?
    requires s.cur != s.ops[o].pc.mid
    requires TempOk(s, s.ops[o].pc.temp)
    ensures var s' := StepDialCas(s, o);
            s'.cur < |s'.heap| && ListOk(s') && HeapOk(s')
  {
  }

  lemma DialCasLosesTemp(s: State, o: nat, t: nat)
    requires Common(s) && OpOk(s, o) && s.ops[o].pc.DialCas?
    requires s.cur != s.ops[o].pc.mid
    requires TempOk(s, s.ops[o].pc.temp)
    requires t < |s.temps| && TempOk(s, t)
    ensures var s' := StepDialCas(s, o);
            t < |s'.temps| == |s.temps| && s'.cur < |s'.heap| && TempOk(s', t)
  {
    hide ListOk, HoldsSocket;
  }

  lemma DialCasLosesKeeps(s: State, o: nat)
    requires Inv(s) && OpOk(s, o) && s.ops[o].pc.DialCas?
    requires s.cur != s.ops[o].pc.mid
    ensures Inv(StepDialCas(s, o)) && Quiet(s, StepDialCas(s, o), o)
  {
    var s' := StepDialCas(s, o);
    assert TempOk(s, s.ops[o].pc.temp);
    assert |s'.temps| == |s.temps|;
    hide StepDialCas, TempOk, OpOk, ListOk, HeapOk;
    DialCasLosesOwn(s, o);
    DialCasLosesQuiet(s, o);
    DialCasLosesLists(s, o);
    Others(s, s', o);
    forall t | 0 <= t < |s'.temps| ensures TempOk(s', t) {
      assert TempOk(s, t);
      DialCasLosesTemp(s, o, t);
    }
  }

  lemma BindCasWinsOwn(s: State, o: nat)
    requires Common(s) && OpOk(s, o) && s.ops[o].pc.BindCas? && s.cur == s.ops[o].pc.prev
    requires TempOk(s, s.ops[o].pc.temp)
    ensures var s' := StepBindCas(s, o);
            OpOk(s', o) && (|s'.ops| > |s.ops| ==> OpOk(s', |s.ops|))
  {
    hide ListOk;
  }

  lemma BindCasWinsQuiet(s: State, o: nat)
    requires Common(s) && OpOk(s, o) && s.ops[o].pc.BindCas? && s.cur == s.ops[o].pc.prev
    requires TempOk(s, s.ops[o].pc.temp)
    ensures var s' := StepBindCas(s, o);
            s'.panic.NoPanic? && s'.cur < |s'.heap| && Quiet(s, s', o)
  {
  }

  lemma BindCasWinsLists(s: State, o: nat)
    requires Common(s) && OpOk(s, o) && s.ops[o].pc.BindCas? && s.cur == s.ops[o].pc.prev
    ensures var s' := StepBindCas(s, o);
            s'.cur < |s'.heap| && ListOk(s') && HeapOk(s')
  {
  }

  lemma BindCasWinsTemp(s: State, o: nat, t: nat)
    requires Common(s) && OpOk(s, o) && s.ops[o].pc.BindCas? && s.cur == s.ops[o].pc.prev
    requires t < |StepBindCas(s, o).temps| && (t < |s.temps| ==> TempOk(s, t))
    requires TempOk(s, s.ops[o].pc.temp)
    ensures StepBindCas(s, o).cur < |StepBindCas(s, o).heap| && TempOk(StepBindCas(s, o), t)
  {
    hide ListOk, HoldsSocket;
  }

  lemma BindCasWinsKeeps(s: State, o: nat)
    requires Inv(s) && OpOk(s, o) && s.ops[o].pc.BindCas? && s.cur == s.ops[o].pc.prev
    ensures Inv(StepBindCas(s, o)) && Quiet(s, StepBindCas(s, o), o)
  {
    var s' := StepBindCas(s, o);
    assert TempOk(s, s.ops[o].pc.temp);
    hide StepBindCas, TempOk, OpOk, ListOk, HeapOk;
    BindCasWinsOwn(s, o);
    BindCasWinsQuiet(s, o);
    BindCasWinsLists(s, o);
    Others(s, s', o);
    forall t | 0 <= t < |s'.temps| ensures TempOk(s', t) {
      BindCasWinsTemp(s, o, t);
    }
  }

  lemma BindCasLosesOwn(s: State, o: nat)
    requires Common(s) && OpOk(s, o) && s.ops[o].pc.BindCas? && s.cur != s.ops[o].pc.prev
    requires TempOk(s, s.ops[o].pc.temp)
    ensures var s' := StepBindCas(s, o);
            OpOk(s', o) && (|s'.ops| > |s.ops| ==> OpOk(s', |s.ops|))
  {
    hide ListOk;
  }

  lemma BindCasLosesQuiet(s: State, o: nat)
    requires Common(s) && OpOk(s, o) && s.ops[o].pc.BindCas? && s.cur != s.ops[o].pc.prev
    requires TempOk(s, s.ops[o].pc.temp)
    ensures var s' := StepBindCas(s, o);
            s'.panic.NoPanic? && s'.cur < |s'.heap| && Quiet(s, s', o)
  {
  }

  lemma BindCasLosesLists(s: State, o: nat)
    requires Common(s) && OpOk(s, o) && s.ops[o].pc.BindCas? && s.cur != s.ops[o].pc.prev
    ensures var s' := StepBindCas(s, o);
            s'.cur < |s'.heap| && ListOk(s') && HeapOk(s')
  {
  }

  lemma BindCasLosesTemp(s: State, o: nat, t: nat)
    requires Common(s) && OpOk(s, o) && s.ops[o].pc.BindCas? && s.cur != s.ops[o].pc.prev
    requires t < |StepBindCas(s, o).temps| && (t < |s.temps| ==> TempOk(s, t))
    requires TempOk(s, s.ops[o].pc.temp)
    ensures StepBindCas(s, o).cur < |StepBindCas(s, o).heap| && TempOk(StepBindCas(s, o), t)
  {
    hide ListOk, HoldsSocket;
  }

  lemma BindCasLosesKeeps(s: State, o: nat)
    requires Inv(s) && OpOk(s, o) && s.ops[o].pc.BindCas? && s.cur != s.ops[o].pc.prev
    ensures Inv(StepBindCas(s, o)) && Quiet(s, StepBindCas(s, o), o)
  {
    var s' := StepBindCas(s, o);
    assert TempOk(s, s.ops[o].pc.temp);
    hide StepBindCas, TempOk, OpOk, ListOk, HeapOk;
    BindCasLosesOwn(s, o);
    BindCasLosesQuiet(s, o);
    BindCasLosesLists(s, o);
    Others(s, s', o);
    forall t | 0 <= t < |s'.temps| ensures TempOk(s', t) {
      BindCasLosesTemp(s, o, t);
    }
  }

  lemma CloseCasLosesKeeps(s: State, o: nat)
    requires Inv(s) && OpOk(s, o) && s.ops[o].pc.CloseCas?
    requires !(s.cur == s.ops[o].pc.prev)
    ensures Inv(StepCloseCas(s, o)) && Quiet(s, StepCloseCas(s, o), o)
  {
    var s' := StepCloseCas(s, o);
    if s.ops[o].role.Closer? { NobodyHolds(s, s.ops[o].sock); }
    Others(s, s', o);
    forall t | 0 <= t < |s'.temps| ensures TempOk(s', t) {
      if t < |s.temps| { assert TempOk(s, t); }
    }
  }

  lemma ShutWinsOwn(s: State, o: nat)
    requires Common(s) && OpOk(s, o) && s.ops[o].pc.Shut?
    requires !s.temps[s.ops[o].pc.temp].closing
    requires TempOk(s, s.ops[o].pc.temp)
    ensures OpOk(StepShut(s, o), o)
  {
    hide ListOk;
  }

  lemma ShutWinsQuiet(s: State, o: nat)
    requires Common(s) && OpOk(s, o) && s.ops[o].pc.Shut?
    requires !s.temps[s.ops[o].pc.temp].closing
    requires TempOk(s, s.ops[o].pc.temp)
    ensures var s' := StepShut(s, o);
            |s'.ops| == |s.ops| && s'.panic.NoPanic? && s'.cur < |s'.heap| && Quiet(s, s', o)
  {
  }

  lemma ShutWinsLists(s: State, o: nat)
    requires Common(s) && OpOk(s, o) && s.ops[o].pc.Shut?
    requires !s.temps[s.ops[o].pc.temp].closing
    requires TempOk(s, s.ops[o].pc.temp)
    ensures var s' := StepShut(s, o);
            s'.cur < |s'.heap| && ListOk(s') && HeapOk(s')
  {
  }

  lemma ShutWinsTemp(s: State, o: nat, t: nat)
    requires Common(s) && OpOk(s, o) && s.ops[o].pc.Shut?
    requires !s.temps[s.ops[o].pc.temp].closing
    requires TempOk(s, s.ops[o].pc.temp)
    requires t < |s.temps| && TempOk(s, t)
    ensures var s' := StepShut(s, o);
            t < |s'.temps| == |s.temps| && s'.cur < |s'.heap| && TempOk(s', t)
  {
    hide ListOk, HoldsSocket;
  }

  lemma ShutWinsKeeps(s: State, o: nat)
    requires Inv(s) && OpOk(s, o) && s.ops[o].pc.Shut?
    requires !s.temps[s.ops[o].pc.temp].closing
    ensures Inv(StepShut(s, o)) && Quiet(s, StepShut(s, o), o)
  {
    var s' := StepShut(s, o);
    assert TempOk(s, s.ops[o].pc.temp);
    assert |s'.temps| == |s.temps|;
    hide StepShut, TempOk, OpOk, ListOk, HeapOk;
    ShutWinsOwn(s, o);
    ShutWinsQuiet(s, o);
    ShutWinsLists(s, o);
    Others(s, s', o);
    forall t | 0 <= t < |s'.temps| ensures TempOk(s', t) {
      assert TempOk(s, t);
      ShutWinsTemp(s, o, t);
    }
  }

  lemma ShutLosesOwn(s: State, o: nat)
    requires Common(s) && OpOk(s, o) && s.ops[o].pc.Shut?
    requires s.temps[s.ops[o].pc.temp].closing
    requires TempOk(s, s.ops[o].pc.temp)
    ensures OpOk(StepShut(s, o), o)
  {
    hide ListOk;
  }

  lemma ShutLosesQuiet(s: State, o: nat)
    requires Common(s) && OpOk(s, o) && s.ops[o].pc.Shut?
    requires s.temps[s.ops[o].pc.temp].closing
    requires TempOk(s, s.ops[o].pc.temp)
    requires s.ops[o].role.Closer? ==> LockReturns(s, s.ops[o].sock)
    ensures var s' := StepShut(s, o);
            |s'.ops| == |s.ops| && s'.panic.NoPanic? && s'.cur < |s'.heap| && Quiet(s, s', o)
  {
  }

  lemma ShutLosesLists(s: State, o: nat)
    requires Common(s) && OpOk(s, o) && s.ops[o].pc.Shut?
    requires s.temps[s.ops[o].pc.temp].closing
    requires TempOk(s, s.ops[o].pc.temp)
    ensures var s' := StepShut(s, o);
            s'.cur < |s'.heap| && ListOk(s') && HeapOk(s')
  {
  }

  lemma ShutLosesTemp(s: State, o: nat, t: nat)
    requires Common(s) && OpOk(s, o) && s.ops[o].pc.Shut?
    requires s.temps[s.ops[o].pc.temp].closing
    requires TempOk(s, s.ops[o].pc.temp)
    requires t < |s.temps| && TempOk(s, t)
    ensures var s' := StepShut(s, o);
            t < |s'.temps| == |s.temps| && s'.cur < |s'.heap| && TempOk(s', t)
  {
    hide ListOk, HoldsSocket;
  }

  lemma ShutLosesKeeps(s: State, o: nat)
    requires Inv(s) && OpOk(s, o) && s.ops[o].pc.Shut?
    requires s.temps[s.ops[o].pc.temp].closing
    ensures Inv(StepShut(s, o)) && Quiet(s, StepShut(s, o), o)
  {
    var s' := StepShut(s, o);
    if s.ops[o].role.Closer? { NobodyHolds(s, s.ops[o].sock); }
    assert TempOk(s, s.ops[o].pc.temp);
    assert |s'.temps| == |s.temps|;
    hide StepShut, TempOk, OpOk, ListOk, HeapOk;
    ShutLosesOwn(s, o);
    ShutLosesQuiet(s, o);
    ShutLosesLists(s, o);
    Others(s, s', o);
    forall t | 0 <= t < |s'.temps| ensures TempOk(s', t) {
      assert TempOk(s, t);
      ShutLosesTemp(s, o, t);
    }
  }

  lemma CloseRemoveLastKeeps(s: State, o: nat)
    requires Inv(s) && OpOk(s, o) && s.ops[o].pc.CloseRemove?
    requires |s.open| == 1
    ensures Inv(StepCloseRemove(s, o)) && Quiet(s, StepCloseRemove(s, o), o)
  {
    var s' := StepCloseRemove(s, o);
    if s.ops[o].role.Closer? { NobodyHolds(s, s.ops[o].sock); }
    Others(s, s', o);
    forall t | 0 <= t < |s'.temps| ensures TempOk(s', t) {
      if t < |s.temps| { assert TempOk(s, t); }
    }
  }

  lemma CloseRemoveMiddleOwn(s: State, o: nat)
    requires Common(s) && OpOk(s, o) && s.ops[o].pc.CloseRemove?
    requires |s.open| != 1
    ensures OpOk(StepCloseRemove(s, o), o)
  {
    RemovedKeepsTheRest(s.open, s.ops[o].sock);
    hide ListOk;
  }

  lemma CloseRemoveMiddleQuiet(s: State, o: nat)
    requires Common(s) && OpOk(s, o) && s.ops[o].pc.CloseRemove?
    requires |s.open| != 1
    requires s.ops[o].role.Closer? ==> LockReturns(s, s.ops[o].sock)
    ensures var s' := StepCloseRemove(s, o);
            |s'.ops| == |s.ops| && s'.panic.NoPanic? && s'.cur < |s'.heap| && Quiet(s, s', o)
  {
    RemovedKeepsTheRest(s.open, s.ops[o].sock);
  }

  lemma CloseRemoveMiddleLists(s: State, o: nat)
    requires Common(s) && OpOk(s, o) && s.ops[o].pc.CloseRemove?
    requires |s.open| != 1
    ensures var s' := StepCloseRemove(s, o);
            s'.cur < |s'.heap| && ListOk(s') && HeapOk(s')
  {
    RemovedKeepsTheRest(s.open, s.ops[o].sock);
  }

  lemma CloseRemoveMiddleTemp(s: State, o: nat, t: nat)
    requires Common(s) && OpOk(s, o) && s.ops[o].pc.CloseRemove?
    requires |s.open| != 1
    requires t < |s.temps| && TempOk(s, t)
    ensures var s' := StepCloseRemove(s, o);
            t < |s'.temps| == |s.temps| && s'.cur < |s'.heap| && TempOk(s', t)
  {
    hide ListOk, HoldsSocket;
  }

  lemma CloseRemoveMiddleKeeps(s: State, o: nat)
    requires Inv(s) && OpOk(s, o) && s.ops[o].pc.CloseRemove?
    requires |s.open| != 1
    ensures Inv(StepCloseRemove(s, o)) && Quiet(s, StepCloseRemove(s, o), o)
  {
    var s' := StepCloseRemove(s, o);
    if s.ops[o].role.Closer? { NobodyHolds(s, s.ops[o].sock); }
    assert |s'.temps| == |s.temps|;
    hide StepCloseRemove, TempOk, OpOk, ListOk, HeapOk;
    CloseRemoveMiddleOwn(s, o);
    CloseRemoveMiddleQuiet(s, o);
    CloseRemoveMiddleLists(s, o);
    Others(s, s', o);
    forall t | 0 <= t < |s'.temps| ensures TempOk(s', t) {
      assert TempOk(s, t);
      CloseRemoveMiddleTemp(s, o, t);
    }
  }

  lemma DialCasFailsOwn(s: State, o: nat)
    requires Common(s) && OpOk(s, o) && s.ops[o].pc.DialCas?
    requires s.cur == s.ops[o].pc.mid && s.ops[o].pc.next.Passive?
    requires TempOk(s, s.ops[o].pc.temp)
    ensures OpOk(StepDialCas(s, o), o)
  {
    hide ListOk;
  }

  lemma DialCasFailsQuiet(s: State, o: nat)
    requires Common(s) && OpOk(s, o) && s.ops[o].pc.DialCas?
    requires s.cur == s.ops[o].pc.mid && s.ops[o].pc.next.Passive?
    requires TempOk(s, s.ops[o].pc.temp)
    ensures var s' := StepDialCas(s, o);
            |s'.ops| == |s.ops| && s'.panic.NoPanic? && s'.cur < |s'.heap| && Quiet(s, s', o)
  {
  }

  lemma DialCasFailsLists(s: State, o: nat)
    requires Common(s) && OpOk(s, o) && s.ops[o].pc.DialCas?
    requires s.cur == s.ops[o].pc.mid && s.ops[o].pc.next.Passive?
    requires TempOk(s, s.ops[o].pc.temp)
    ensures var s' := StepDialCas(s, o);
            s'.cur < |s'.heap| && ListOk(s') && HeapOk(s')
  {
  }

  lemma DialCasFailsTemp(s: State, o: nat, t: nat)
    requires Common(s) && OpOk(s, o) && s.ops[o].pc.DialCas?
    requires s.cur == s.ops[o].pc.mid && s.ops[o].pc.next.Passive?
    requires TempOk(s, s.ops[o].pc.temp)
    requires t < |s.temps| && TempOk(s, t)
    ensures var s' := StepDialCas(s, o);
            t < |s'.temps| == |s.temps| && s'.cur < |s'.heap| && TempOk(s', t)
  {
    hide ListOk, HoldsSocket;
  }

  lemma DialCasFailsKeeps(s: State, o: nat)
    requires Inv(s) && OpOk(s, o) && s.ops[o].pc.DialCas?
    requires s.cur == s.ops[o].pc.mid && s.ops[o].pc.next.Passive?
    ensures Inv(StepDialCas(s, o)) && Quiet(s, StepDialCas(s, o), o)
  {
    var s' := StepDialCas(s, o);
    assert TempOk(s, s.ops[o].pc.temp);
    assert |s'.temps| == |s.temps|;
    hide StepDialCas, TempOk, OpOk, ListOk, HeapOk;
    DialCasFailsOwn(s, o);
    DialCasFailsQuiet(s, o);
    DialCasFailsLists(s, o);
    Others(s, s', o);
    forall t | 0 <= t < |s'.temps| ensures TempOk(s', t) {
      assert TempOk(s, t);
      DialCasFailsTemp(s, o, t);
    }
  }

  lemma DialCasConnectsOwn(s: State, o: nat)
    requires Common(s) && OpOk(s, o) && s.ops[o].pc.DialCas?
    requires s.cur == s.ops[o].pc.mid && s.ops[o].pc.next.Connected?
    requires TempOk(s, s.ops[o].pc.temp)
    ensures OpOk(StepDialCas(s, o), o)
  {
    hide ListOk;
  }

  lemma DialCasConnectsQuiet(s: State, o: nat)
    requires Common(s) && OpOk(s, o) && s.ops[o].pc.DialCas?
    requires s.cur == s.ops[o].pc.mid && s.ops[o].pc.next.Connected?
    requires TempOk(s, s.ops[o].pc.temp)
    ensures var s' := StepDialCas(s, o);
            |s'.ops| == |s.ops| && s'.panic.NoPanic? && s'.cur < |s'.heap| && Quiet(s, s', o)
  {
  }

  lemma DialCasConnectsLists(s: State, o: nat)
    requires Common(s) && OpOk(s, o) && s.ops[o].pc.DialCas?
    requires s.cur == s.ops[o].pc.mid && s.ops[o].pc.next.Connected?
    requires TempOk(s, s.ops[o].pc.temp)
    ensures var s' := StepDialCas(s, o);
            s'.cur < |s'.heap| && ListOk(s') && HeapOk(s')
  {
  }

  lemma DialCasConnectsTemp(s: State, o: nat, t: nat)
    requires Common(s) && OpOk(s, o) && s.ops[o].pc.DialCas?
    requires s.cur == s.ops[o].pc.mid && s.ops[o].pc.next.Connected?
    requires TempOk(s, s.ops[o].pc.temp)
    requires t < |s.temps| && TempOk(s, t)
    ensures var s' := StepDialCas(s, o);
            t < |s'.temps| == |s.temps| && s'.cur < |s'.heap| && TempOk(s', t)
  {
    hide ListOk, HoldsSocket;
  }

  lemma DialCasConnectsKeeps(s: State, o: nat)
    requires Inv(s) && OpOk(s, o) && s.ops[o].pc.DialCas?
    requires s.cur == s.ops[o].pc.mid && s.ops[o].pc.next.Connected?
    ensures Inv(StepDialCas(s, o)) && Quiet(s, StepDialCas(s, o), o)
  {
    var s' := StepDialCas(s, o);
    assert TempOk(s, s.ops[o].pc.temp);
    assert |s'.temps| == |s.temps|;
    hide StepDialCas, TempOk, OpOk, ListOk, HeapOk;
    DialCasConnectsOwn(s, o);
    DialCasConnectsQuiet(s, o);
    DialCasConnectsLists(s, o);
    Others(s, s', o);
    forall t | 0 <= t < |s'.temps| ensures TempOk(s', t) {
      assert TempOk(s, t);
      DialCasConnectsTemp(s, o, t);
    }
  }

  lemma CloseCasBareOwn(s: State, o: nat)
    requires Common(s) && OpOk(s, o) && s.ops[o].pc.CloseCas?
    requires s.cur == s.ops[o].pc.prev && s.heap[s.cur].Bind().None?
    ensures OpOk(StepCloseCas(s, o), o)
  {
    hide ListOk;
  }

  lemma CloseCasBareQuiet(s: State, o: nat)
    requires Common(s) && OpOk(s, o) && s.ops[o].pc.CloseCas?
    requires s.cur == s.ops[o].pc.prev && s.heap[s.cur].Bind().None?
    requires s.ops[o].role.Closer? ==> LockReturns(s, s.ops[o].sock)
    ensures var s' := StepCloseCas(s, o);
            |s'.ops| == |s.ops| && s'.panic.NoPanic? && s'.cur < |s'.heap| && Quiet(s, s', o)
  {
  }

  lemma CloseCasBareLists(s: State, o: nat)
    requires Common(s) && OpOk(s, o) && s.ops[o].pc.CloseCas?
    requires s.cur == s.ops[o].pc.prev && s.heap[s.cur].Bind().None?
    ensures var s' := StepCloseCas(s, o);
            s'.cur < |s'.heap| && ListOk(s') && HeapOk(s')
  {
  }

  lemma CloseCasBareTemp(s: State, o: nat, t: nat)
    requires Common(s) && OpOk(s, o) && s.ops[o].pc.CloseCas?
    requires s.cur == s.ops[o].pc.prev && s.heap[s.cur].Bind().None?
    requires t < |s.temps| && TempOk(s, t)
    ensures var s' := StepCloseCas(s, o);
            t < |s'.temps| == |s.temps| && s'.cur < |s'.heap| && TempOk(s', t)
  {
    hide ListOk, HoldsSocket;
  }

  lemma CloseCasBareKeeps(s: State, o: nat)
    requires Inv(s) && OpOk(s, o) && s.ops[o].pc.CloseCas?
    requires s.cur == s.ops[o].pc.prev && s.heap[s.cur].Bind().None?
    ensures Inv(StepCloseCas(s, o)) && Quiet(s, StepCloseCas(s, o), o)
  {
    var s' := StepCloseCas(s, o);
    if s.ops[o].role.Closer? { NobodyHolds(s, s.ops[o].sock); }
    assert |s'.temps| == |s.temps|;
    hide StepCloseCas, TempOk, OpOk, ListOk, HeapOk;
    CloseCasBareOwn(s, o);
    CloseCasBareQuiet(s, o);
    CloseCasBareLists(s, o);
    Others(s, s', o);
    forall t | 0 <= t < |s'.temps| ensures TempOk(s', t) {
      assert TempOk(s, t);
      CloseCasBareTemp(s, o, t);
    }
  }

  lemma CloseCasBoundOwn(s: State, o: nat)
    requires Common(s) && OpOk(s, o) && s.ops[o].pc.CloseCas? && s.cur == s.ops[o].pc.prev && s.heap[s.cur].Bind().Some?
    ensures var s' := StepCloseCas(s, o);
            OpOk(s', o) && (|s'.ops| > |s.ops| ==> OpOk(s', |s.ops|))
  {
    hide ListOk;
  }

  lemma CloseCasBoundQuiet(s: State, o: nat)
    requires Common(s) && OpOk(s, o) && s.ops[o].pc.CloseCas? && s.cur == s.ops[o].pc.prev && s.heap[s.cur].Bind().Some?
    ensures var s' := StepCloseCas(s, o);
            s'.panic.NoPanic? && s'.cur < |s'.heap| && Quiet(s, s', o)
  {
  }

  lemma CloseCasBoundLists(s: State, o: nat)
    requires Common(s) && OpOk(s, o) && s.ops[o].pc.CloseCas? && s.cur == s.ops[o].pc.prev && s.heap[s.cur].Bind().Some?
    ensures var s' := StepCloseCas(s, o);
            s'.cur < |s'.heap| && ListOk(s') && HeapOk(s')
  {
  }

  lemma CloseCasBoundTemp(s: State, o: nat, t: nat)
    requires Common(s) && OpOk(s, o) && s.ops[o].pc.CloseCas? && s.cur == s.ops[o].pc.prev && s.heap[s.cur].Bind().Some?
    requires t < |StepCloseCas(s, o).temps| && (t < |s.temps| ==> TempOk(s, t))
    ensures StepCloseCas(s, o).cur < |StepCloseCas(s, o).heap| && TempOk(StepCloseCas(s, o), t)
  {
    hide ListOk, HoldsSocket;
  }

  lemma CloseCasBoundKeeps(s: State, o: nat)
    requires Inv(s) && OpOk(s, o) && s.ops[o].pc.CloseCas? && s.cur == s.ops[o].pc.prev && s.heap[s.cur].Bind().Some?
    ensures Inv(StepCloseCas(s, o)) && Quiet(s, StepCloseCas(s, o), o)
  {
    var s' := StepCloseCas(s, o);
    hide StepCloseCas, TempOk, OpOk, ListOk, HeapOk;
    CloseCasBoundOwn(s, o);
    CloseCasBoundQuiet(s, o);
    CloseCasBoundLists(s, o);
    Others(s, s', o);
    forall t | 0 <= t < |s'.temps| ensures TempOk(s', t) {
      CloseCasBoundTemp(s, o, t);
    }
  }


  lemma BeginKeeps(s: State, k: nat, kind: Kind)
    requires Inv(s) && k < |s.socks|
    ensures Inv(StepBegin(s, k, kind))
  {
    var s' := StepBegin(s, k, kind);
    forall o | 0 <= o < |s'.ops| ensures OpOk(s', o) {
      if o < |s.ops| { assert OpOk(s, o); }
    }
    forall t | 0 <= t < |s'.temps| ensures TempOk(s', t) {
      assert TempOk(s, t);
    }
  }

  lemma BeginCloseKeeps(s: State, k: nat)
    requires Inv(s) && k < |s.socks|
    ensures Inv(StepBeginClose(s, k))
  {
    var s' := StepBeginClose(s, k);
    forall o | 0 <= o < |s'.ops| ensures OpOk(s', o) {
      if o < |s.ops| { assert OpOk(s, o); }
    }
    forall t | 0 <= t < |s'.temps| ensures TempOk(s', t) {
      assert TempOk(s, t);
    }
  }

  lemma JoinKeeps(s: State, o: nat)
    requires Inv(s) && o < |s.ops|
    ensures Inv(StepJoin(s, o))
  {
    var s' := StepJoin(s, o);
    assert OpOk(s, o);
    assert s'.open != s.open ==> s.socks[s.ops[o].sock].Open? || s.socks[s.ops[o].sock].Closing?;
    assert Distinct(s'.open) by {
      forall i, j | 0 <= i < j < |s'.open| ensures s'.open[i] != s'.open[j] {
        assert s.open[i] in s.open;
      }
    }
    Others(s, s', o);
    forall t | 0 <= t < |s'.temps| ensures TempOk(s', t) {
      assert TempOk(s, t);
    }
  }

  lemma ConnectStepKeeps(s: State, o: nat, c: Choice)
    requires Inv(s) && OpOk(s, o)
    requires s.ops[o].pc.Start? || s.ops[o].pc.ConnectPrep? || s.ops[o].pc.ConnectCas? || s.ops[o].pc.ConnectDial?
             || s.ops[o].pc.ConnectTail? || s.ops[o].pc.Dialing? || s.ops[o].pc.DialCas?
    ensures Inv(Step(s, o, c)) && Quiet(s, Step(s, o, c), o)
  {
    hide Inv, Quiet;
    var pc := s.ops[o].pc;
    match pc
    case Start(kind) =>
      if s.heap[s.cur].Passive? && !kind.OtherCall? { StartProceedsKeeps(s, o); } else { StartReturnsKeeps(s, o); }
    case ConnectPrep(_) => ConnectPrepKeeps(s, o, c);
    case ConnectCas(_, _, _) =>
      if s.cur == pc.prev && (c.Yes? || !pc.own) { ConnectCasWinsKeeps(s, o, c); } else { ConnectCasLosesKeeps(s, o, c); }
    case ConnectDial(_, _) => ConnectDialKeeps(s, o, c);
    case ConnectTail => TailKeeps(s, o);
    case Dialing(_, _) => DialingKeeps(s, o, c);
    case DialCas(_, _, _) =>
      if s.cur != pc.mid { DialCasLosesKeeps(s, o); }
      else if pc.next.Passive? { DialCasFailsKeeps(s, o); }
      else { DialCasConnectsKeeps(s, o); }
  }

  lemma BindStepKeeps(s: State, o: nat, c: Choice)
    requires Inv(s) && OpOk(s, o)
    requires s.ops[o].pc.BindPrep? || s.ops[o].pc.BindSys? || s.ops[o].pc.BindFailed? || s.ops[o].pc.BindCas?
             || s.ops[o].pc.BindUndo?
    ensures Inv(Step(s, o, c)) && Quiet(s, Step(s, o, c), o)
  {
    hide Inv, Quiet;
    var pc := s.ops[o].pc;
    match pc
    case BindPrep(_) => BindPrepKeeps(s, o, c);
    case BindSys(_, _, _) => BindSysKeeps(s, o, c);
    case BindFailed(_) => BindFailedKeeps(s, o, c);
    case BindCas(_, _, _) => if s.cur == pc.prev { BindCasWinsKeeps(s, o); } else { BindCasLosesKeeps(s, o); }
    case BindUndo(_) => BindUndoKeeps(s, o);
  }

  lemma ListenStepKeeps(s: State, o: nat, c: Choice)
    requires Inv(s) && OpOk(s, o)
    requires s.ops[o].pc.ListenPrep? || s.ops[o].pc.ListenTake? || s.ops[o].pc.ListenKill? || s.ops[o].pc.ListenCas?
    ensures Inv(Step(s, o, c)) && Quiet(s, Step(s, o, c), o)
  {
    hide Inv, Quiet;
    match s.ops[o].pc
    case ListenPrep(_) => ListenPrepKeeps(s, o, c);
    case ListenTake(_, _) => ListenTakeKeeps(s, o);
    case ListenKill(_, _) => ListenKillKeeps(s, o);
    case ListenCas(_) => ListenCasKeeps(s, o);
  }

  lemma QuietItself(s: State, o: nat)
    requires o < |s.ops|
    ensures Quiet(s, s, o)
  {
  }

  lemma CloseStepKeeps(s: State, o: nat, c: Choice)
    requires Inv(s) && OpOk(s, o)
    requires s.ops[o].pc.CloseWait? || s.ops[o].pc.CloseSys? || s.ops[o].pc.CloseRemove? || s.ops[o].pc.CloseLoad?
             || s.ops[o].pc.CloseCas? || s.ops[o].pc.Shut? || s.ops[o].pc.Shutting? || s.ops[o].pc.Finished?
    ensures Inv(Step(s, o, c)) && Quiet(s, Step(s, o, c), o)
  {
    hide Inv, Quiet;
    var pc := s.ops[o].pc;
    match pc
    case CloseWait => CloseWaitKeeps(s, o);
    case CloseSys => CloseSysKeeps(s, o, c);
    case CloseRemove => if |s.open| == 1 { CloseRemoveLastKeeps(s, o); } else { CloseRemoveMiddleKeeps(s, o); }
    case CloseLoad => CloseLoadKeeps(s, o);
    case CloseCas(_) =>
      if s.cur != pc.prev { CloseCasLosesKeeps(s, o); }
      else if s.heap[s.cur].Bind().None? { CloseCasBareKeeps(s, o); }
      else { CloseCasBoundKeeps(s, o); }
    case Shut(_, _) => if s.temps[pc.temp].closing { ShutLosesKeeps(s, o); } else { ShutWinsKeeps(s, o); }
    case Shutting(_) => ShuttingKeeps(s, o);
    case Finished => QuietItself(s, o);
  }

  lemma GoKeeps(s: State, o: nat, c: Choice)
    requires Inv(s) && OpOk(s, o)
    ensures Inv(Step(s, o, c)) && Quiet(s, Step(s, o, c), o)
  {
    var pc := s.ops[o].pc;
    if pc.BindPrep? || pc.BindSys? || pc.BindFailed? || pc.BindCas? || pc.BindUndo? {
      BindStepKeeps(s, o, c);
    } else if pc.ListenPrep? || pc.ListenTake? || pc.ListenKill? || pc.ListenCas? {
      ListenStepKeeps(s, o, c);
    } else if pc.CloseWait? || pc.CloseSys? || pc.CloseRemove? || pc.CloseLoad?
              || pc.CloseCas? || pc.Shut? || pc.Shutting? || pc.Finished? {
      CloseStepKeeps(s, o, c);
    } else {
      ConnectStepKeeps(s, o, c);
    }
  }

  lemma TailKeeps(s: State, o: nat)
    requires Inv(s) && OpOk(s, o) && (s.ops[o].pc.ConnectTail? || s.ops[o].pc.Start?)
    ensures Inv(Finish(s, o)) && Quiet(s, Finish(s, o), o)
  {
    var s' := Finish(s, o);
    Others(s, s', o);
    forall t | 0 <= t < |s'.temps| ensures TempOk(s', t) {
      assert TempOk(s, t);
    }
  }

  lemma StepKeepsInv(s: State, m: Move)
    requires Inv(s)
    ensures Inv(Apply(s, m))
  {
    match m
    case Begin(k, kind) => if k < |s.socks| { BeginKeeps(s, k, kind); }
    case BeginClose(k) => if k < |s.socks| { BeginCloseKeeps(s, k); }
    case Join(o) => if o < |s.ops| { JoinKeeps(s, o); }
    case Go(o, c) => if Ready(s, o) { assert OpOk(s, o); GoKeeps(s, o, c); }
  }
}
