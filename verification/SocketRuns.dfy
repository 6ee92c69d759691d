// What holds in every run of the sockets of an inode.
module SocketRuns {
  import opened Guards
  import opened Options
  import opened Schedules
  import opened Sockets
  import opened SocketSteps

  // ---- over every run ----

  lemma {:induction false} RunKeepsInv(s: State, schedule: seq<Move>)
    requires Inv(s)
    ensures Inv(Run(Apply, s, schedule))
    decreases |schedule|
  {
    if schedule != [] {
      StepKeepsInv(s, schedule[0]);
      RunKeepsInv(Apply(s, schedule[0]), schedule[1..]);
    }
  }

  ghost predicate Reachable(s: State) {
    exists schedule: seq<Move> :: s == Run(Apply, NewInode(), schedule)
  }

  lemma ReachableInv(s: State)
    requires Reachable(s)
    ensures Inv(s)
  {
    var schedule: seq<Move> :| s == Run(Apply, NewInode(), schedule);
    RunKeepsInv(NewInode(), schedule);
  }

  /** None of the three panics can happen. */
  lemma NeverPanics(s: State)
    requires Reachable(s)
    ensures s.panic.NoPanic?
  {
    ReachableInv(s);
  }

  /** At most one Close empties the list, and what it finds is never Closed already. */
  lemma LastIsUnique(s: State, m: Move)
    requires Reachable(s)
    ensures s.lastOp.Some? ==> Apply(s, m).lastOp == s.lastOp
    ensures s.lastOp.Some? <==> s.open == []
    ensures s.cur < |s.heap| && s.heap[s.cur].Closed? ==> s.lastOp.Some?
  {
    ReachableInv(s);
    if m.Go? && Ready(s, m.op) { assert OpOk(s, m.op); }
  }

  /** When the list is empty no foreground call is running on the inode, none can begin, and
      no socket can join. */
  lemma ClosedMeansQuiet(s: State, m: Move)
    requires Reachable(s)
    requires s.open == []
    ensures forall o :: 0 <= o < |s.ops| && s.ops[o].role.Foreground? ==> !Live(s.ops[o])
    ensures forall o :: 0 <= o < |s.ops| && Live(s.ops[o]) && s.ops[o].role.Closer? ==>
              s.lastOp == Some(o) || s.ops[o].pc.Shut? || s.ops[o].pc.Shutting?
    ensures Apply(s, m).open == [] && |Apply(s, m).socks| == |s.socks|
    ensures m.Begin? || m.BeginClose? ==> Apply(s, m) == s
  {
    ReachableInv(s);
    forall o | 0 <= o < |s.ops| && Live(s.ops[o])
      ensures !s.ops[o].role.Foreground?
      ensures s.ops[o].role.Closer? ==> s.lastOp == Some(o) || s.ops[o].pc.Shut? || s.ops[o].pc.Shutting?
    {
      assert OpOk(s, o);
    }
    EmptyStays(s, m);
  }

  lemma EmptyStays(s: State, m: Move)
    requires Inv(s) && s.open == []
    ensures Apply(s, m).open == [] && |Apply(s, m).socks| == |s.socks|
    ensures m.Begin? || m.BeginClose? ==> Apply(s, m) == s
  {
    match m
    case Begin(k, _) =>
    case BeginClose(k) =>
    case Join(o) => if o < |s.ops| { assert OpOk(s, o); }
    case Go(o, c) =>
      if Ready(s, o) {
        assert OpOk(s, o);
        hide Inv, OpOk;
        GoKeepsEmpty(s, o, c);
      }
  }

  lemma GoKeepsEmpty(s: State, o: nat, c: Choice)
    requires OpOk(s, o) && s.open == []
    ensures Step(s, o, c).open == [] && |Step(s, o, c).socks| == |s.socks|
  {
    var pc := s.ops[o].pc;
    if !s.ops[o].role.Closer? {
      CallKeepsLists(s, o, c);
    } else if pc.CloseWait? || pc.CloseSys? || pc.CloseRemove? {
      hide Remembers, HandlesTemps, LockReturns;
    } else {
      LateStep(s, o, c);
    }
  }

  /** The state pointer only makes the allowed transitions. */
  lemma TransitionsAllowed(s: State, m: Move)
    requires Reachable(s)
    ensures Apply(s, m).cur < |Apply(s, m).heap| && s.cur < |s.heap|
    ensures Apply(s, m).cur != s.cur ==> Allowed(s.heap[s.cur], Apply(s, m).heap[Apply(s, m).cur])
    ensures s.heap[s.cur].Closed? ==> Apply(s, m).cur == s.cur
  {
    ReachableInv(s);
    if m.Go? && Ready(s, m.op) {
      assert OpOk(s, m.op);
      if s.ops[m.op].role.Closer? { CloserInstalls(s, m.op, m.choice); } else { CallInstalls(s, m.op, m.choice); }
    }
  }

  lemma CloserInstalls(s: State, o: nat, c: Choice)
    requires s.cur < |s.heap| && OpOk(s, o) && s.ops[o].role.Closer?
    ensures var s' := Step(s, o, c);
            s'.cur < |s'.heap| && (s'.cur != s.cur ==> !s.heap[s.cur].Closed? && s'.heap[s'.cur].Closed?)
  {
    hide HandlesTemps, HoldsSocket, LockReturns, Removed;
  }

  /** What a step does to the state pointer is allowed. */
  ghost predicate Installs(s: State, s': State) {
    && s.cur < |s.heap| && s'.cur < |s'.heap|
    && (s'.cur != s.cur ==> !s.heap[s.cur].Closed? && Allowed(s.heap[s.cur], s'.heap[s'.cur]))
  }

  lemma CallInstalls(s: State, o: nat, c: Choice)
    requires s.cur < |s.heap| && OpOk(s, o) && !s.ops[o].role.Closer?
    ensures Installs(s, Step(s, o, c))
  {
    hide HandlesTemps, HoldsSocket;
    var pc := s.ops[o].pc;
    if pc.ConnectCas? || pc.DialCas? {
      ConnectInstalls(s, o, c);
    } else if pc.BindFailed? || pc.BindCas? || pc.ListenCas? {
      BindOrListenInstalls(s, o, c);
    } else {
      OtherCallsInstallNone(s, o, c);
    }
  }

  lemma ConnectInstalls(s: State, o: nat, c: Choice)
    requires s.cur < |s.heap| && Ready(s, o) && Remembers(s, o) && (s.ops[o].pc.ConnectCas? || s.ops[o].pc.DialCas?)
    ensures Installs(s, Step(s, o, c))
  {
  }

  lemma BindOrListenInstalls(s: State, o: nat, c: Choice)
    requires s.cur < |s.heap| && Ready(s, o) && Remembers(s, o)
    requires s.ops[o].pc.BindFailed? || s.ops[o].pc.BindCas? || s.ops[o].pc.ListenCas?
    ensures Installs(s, Step(s, o, c))
  {
  }

  lemma OtherCallsInstallNone(s: State, o: nat, c: Choice)
    requires Ready(s, o) && Fits(s.ops[o]) && !s.ops[o].role.Closer?
    requires !(s.ops[o].pc.ConnectCas? || s.ops[o].pc.DialCas? || s.ops[o].pc.BindFailed? || s.ops[o].pc.BindCas?
               || s.ops[o].pc.ListenCas?)
    ensures Step(s, o, c).cur == s.cur && Step(s, o, c).heap == s.heap
  {
  }

  /** No temporary socket is ever closed twice. */
  lemma ClosedAtMostOnce(s: State, t: nat)
    requires Reachable(s) && t < |s.temps|
    ensures s.temps[t].closes <= 1
  {
    ReachableInv(s);
    assert TempOk(s, t);
  }

  /** One that is still open belongs to the current state, or to an operation in flight. */
  lemma OpenTempHasOwner(s: State, t: nat)
    requires Reachable(s) && t < |s.temps| && s.temps[t].closes == 0
    ensures s.cur < |s.heap|
    ensures || (!s.temps[t].closing && s.heap[s.cur].Bind() == Some(t))
            || (exists o :: 0 <= o < |s.ops| && Live(s.ops[o]) && (Keeps(s.ops[o]) == Some(t) || Kills(s.ops[o]) == Some(t)))
  {
    ReachableInv(s);
    assert TempOk(s, t);
    if s.temps[t].owner.ByOp? {
      assert Live(s.ops[s.temps[t].owner.op]);
    }
  }

  // ---- what the calls do to a socket's descriptor is what its guard allows ----

  /** Socket k as its descriptor's users see it, with room for n calls. */
  function SocketGuard(s: State, k: nat, n: nat): Guard
    requires k < |s.socks|
  {
    Guard(s.socks[k], seq(n, o requires 0 <= o => if o < |s.ops| && Holds(s.ops[o], k) then 1 else 0))
  }

  lemma FollowsGuard(s: State, m: Move, k: nat)
    requires Reachable(s) && k < |s.socks|
    ensures |Apply(s, m).ops| <= |s.ops| + 1 && |s.socks| <= |Apply(s, m).socks|
    ensures var g, g' := SocketGuard(s, k, |s.ops| + 1), SocketGuard(Apply(s, m), k, |s.ops| + 1);
            g' == g || GuardStep(g, g')
  {
    ReachableInv(s);
    match m
    case Begin(k', kind) => if k' < |s.socks| { BeginFollowsGuard(s, k', kind, k); }
    case BeginClose(k') => if k' < |s.socks| { BeginCloseFollowsGuard(s, k', k); }
    case Join(o) =>
      assert SocketGuard(Apply(s, m), k, |s.ops| + 1) == SocketGuard(s, k, |s.ops| + 1);
    case Go(o, c) => if Ready(s, o) { assert OpOk(s, o); GoFollowsGuard(s, o, c, k); }
  }

  lemma BeginFollowsGuard(s: State, k': nat, kind: Kind, k: nat)
    requires s.panic.NoPanic? && k < |s.socks| && k' < |s.socks|
    ensures var g, g' := SocketGuard(s, k, |s.ops| + 1), SocketGuard(StepBegin(s, k', kind), k, |s.ops| + 1);
            g' == g || GuardStep(g, g')
  {
    var g, g' := SocketGuard(s, k, |s.ops| + 1), SocketGuard(StepBegin(s, k', kind), k, |s.ops| + 1);
    if k' == k && s.socks[k].Open? {
      assert Acquires(g, g', |s.ops|);
    } else {
      assert g'.held == g.held;
    }
  }

  lemma BeginCloseFollowsGuard(s: State, k': nat, k: nat)
    requires s.panic.NoPanic? && k < |s.socks| && k' < |s.socks|
    ensures var g, g' := SocketGuard(s, k, |s.ops| + 1), SocketGuard(StepBeginClose(s, k'), k, |s.ops| + 1);
            g' == g || GuardStep(g, g')
  {
    var g, g' := SocketGuard(s, k, |s.ops| + 1), SocketGuard(StepBeginClose(s, k'), k, |s.ops| + 1);
    assert g'.held == g.held;
    if k' == k && s.socks[k].Open? {
      assert Marks(g, g', |s.ops|);
    }
  }

  lemma GoFollowsGuard(s: State, o: nat, c: Choice, k: nat)
    requires Inv(s) && OpOk(s, o) && k < |s.socks|
    ensures |Step(s, o, c).ops| <= |s.ops| + 1 && |s.socks| <= |Step(s, o, c).socks|
    ensures var g, g' := SocketGuard(s, k, |s.ops| + 1), SocketGuard(Step(s, o, c), k, |s.ops| + 1);
            g' == g || GuardStep(g, g')
  {
    GoKeeps(s, o, c);
    PhaseMoves(s, o, c, k);
    HeldMoves(s, Step(s, o, c), o, k);
    var g, g' := SocketGuard(s, k, |s.ops| + 1), SocketGuard(Step(s, o, c), k, |s.ops| + 1);
    if g'.held != g.held {
      assert Drops(g, g', o);
    } else if g'.phase != g.phase {
      if s.ops[o].pc.CloseWait? {
        assert Excludes(g, g', o);
      } else {
        assert Ends(g, g', o);
      }
    }
  }

  lemma HeldMoves(s: State, s': State, o: nat, k: nat)
    requires o < |s.ops| <= |s'.ops| <= |s.ops| + 1 && k < |s.socks| == |s'.socks|
    requires forall j :: 0 <= j < |s.ops| && j != o ==> s'.ops[j] == s.ops[j]
    requires s'.ops[o].role == s.ops[o].role && s'.ops[o].sock == s.ops[o].sock
    requires !Live(s.ops[o]) ==> s' == s
    requires |s'.ops| > |s.ops| ==> s'.ops[|s.ops|].role.Background?
    ensures var h, h' := SocketGuard(s, k, |s.ops| + 1).held, SocketGuard(s', k, |s.ops| + 1).held;
            if Holds(s.ops[o], k) && !Live(s'.ops[o]) then h[o] == 1 && h' == h[o := 0] else h' == h
  {
  }

  /** What only a Close can change. */
  ghost predicate SameLists(s: State, s': State) {
    s'.socks == s.socks && s'.open == s.open && s'.failed == s.failed
  }

  ghost predicate OtherOps(s: State, s': State, o: nat) {
    && o < |s.ops| <= |s'.ops| && s'.ops[o].role == s.ops[o].role && s'.ops[o].sock == s.ops[o].sock
    && (forall o' :: 0 <= o' < |s.ops| && o' != o ==> s'.ops[o'] == s.ops[o'])
  }

  lemma CallKeepsLists(s: State, o: nat, c: Choice)
    requires OpOk(s, o) && !s.ops[o].role.Closer?
    ensures SameLists(s, Step(s, o, c))
  {
    hide Remembers, HandlesTemps, HoldsSocket;
    var pc := s.ops[o].pc;
    if pc.BindPrep? || pc.BindSys? || pc.BindFailed? || pc.BindCas? || pc.BindUndo?
       || pc.ListenPrep? || pc.ListenTake? || pc.ListenKill? || pc.ListenCas? {
      BindOrListenKeepsLists(s, o, c);
    } else {
      ConnectKeepsLists(s, o, c);
    }
  }

  lemma BindOrListenKeepsLists(s: State, o: nat, c: Choice)
    requires Ready(s, o) && !s.ops[o].role.Closer?
    requires s.ops[o].pc.BindPrep? || s.ops[o].pc.BindSys? || s.ops[o].pc.BindFailed? || s.ops[o].pc.BindCas?
             || s.ops[o].pc.BindUndo? || s.ops[o].pc.ListenPrep? || s.ops[o].pc.ListenTake? || s.ops[o].pc.ListenKill?
             || s.ops[o].pc.ListenCas?
    ensures SameLists(s, Step(s, o, c))
  {
  }

  lemma ConnectKeepsLists(s: State, o: nat, c: Choice)
    requires Ready(s, o) && !s.ops[o].role.Closer?
    requires s.ops[o].pc.Start? || s.ops[o].pc.ConnectPrep? || s.ops[o].pc.ConnectCas? || s.ops[o].pc.ConnectDial?
             || s.ops[o].pc.ConnectTail? || s.ops[o].pc.Dialing? || s.ops[o].pc.DialCas? || s.ops[o].pc.Shut?
             || s.ops[o].pc.Shutting? || s.ops[o].pc.Finished?
    ensures SameLists(s, Step(s, o, c))
  {
  }

  /** The steps of a Close once its own close(2) is done. */
  ghost predicate LateMoves(s: State, s': State, o: nat) {
    && OtherOps(s, s', o) && s.ops[o].sock < |s.socks| && s'.open == s.open && s'.failed == s.failed
    && !(s'.ops[o].pc.CloseWait? || s'.ops[o].pc.CloseSys? || s'.ops[o].pc.CloseRemove?)
    && s'.socks == if Live(s'.ops[o]) || !Live(s.ops[o]) then s.socks else s.socks[s.ops[o].sock := Done]
  }

  lemma LateStep(s: State, o: nat, c: Choice)
    requires Ready(s, o) && s.ops[o].role.Closer? && (Live(s.ops[o]) ==> s.socks[s.ops[o].sock] == Exclusive(o))
    requires Fits(s.ops[o]) && !(s.ops[o].pc.CloseWait? || s.ops[o].pc.CloseSys? || s.ops[o].pc.CloseRemove?)
    ensures LateMoves(s, Step(s, o, c), o)
  {
    match s.ops[o].pc
    case CloseLoad => LoadStep(s, o);
    case CloseCas(_) => CasStep(s, o);
    case _ => ShutStep(s, o, c);
  }

  lemma LoadStep(s: State, o: nat)
    requires Ready(s, o) && s.ops[o].role.Closer? && s.ops[o].pc.CloseLoad?
    ensures LateMoves(s, StepCloseLoad(s, o), o)
  {
  }

  lemma CasStep(s: State, o: nat)
    requires Ready(s, o) && s.ops[o].role.Closer? && s.ops[o].pc.CloseCas?
    ensures LateMoves(s, StepCloseCas(s, o), o)
  {
  }

  lemma ShutStep(s: State, o: nat, c: Choice)
    requires Ready(s, o) && s.ops[o].role.Closer? && (Live(s.ops[o]) ==> s.socks[s.ops[o].sock] == Exclusive(o))
    requires s.ops[o].pc.Shut? || s.ops[o].pc.Shutting? || s.ops[o].pc.Finished?
    ensures LateMoves(s, Step(s, o, c), o)
  {
    hide Refers;
  }

  lemma PhaseMoves(s: State, o: nat, c: Choice, k: nat)
    requires Inv(s) && OpOk(s, o) && k < |s.socks|
    ensures var s' := Step(s, o, c);
            && |s'.socks| == |s.socks|
            && (|| s'.socks[k] == s.socks[k]
                || (&& k == s.ops[o].sock && s.ops[o].role.Closer? && s.ops[o].pc.CloseWait?
                    && s.socks[k] == Closing(o) && s'.socks[k] == Exclusive(o) && LockReturns(s, k))
                || (&& k == s.ops[o].sock && s.ops[o].role.Closer? && !s.ops[o].pc.CloseWait?
                    && s.socks[k] == Exclusive(o) && s'.socks[k] == Done))
  {
    var pc := s.ops[o].pc;
    hide Inv;
    if !s.ops[o].role.Closer? {
      CallKeepsLists(s, o, c);
    } else if pc.CloseWait? || pc.CloseSys? || pc.CloseRemove? {
      hide LockReturns, Remembers, HandlesTemps;
    } else {
      LateStep(s, o, c);
      hide Step;
    }
  }
}
