// When the sockets of an inode leave a temporary socket open, and when bind(2) meets a closed one.
module SocketLeaks {
  import opened Guards
  import opened Options
  import opened Schedules
  import opened Sockets
  import opened SocketRuns
  import opened SocketSteps

  // ---- failed close(2) calls ----

  /** Where socket k is in its Close, and what that says about the list. */
  ghost predicate ListedOk(s: State, k: nat)
    requires k < |s.socks|
  {
    match s.socks[k]
    case Open => k !in s.failed
    case Closing(o) => k !in s.failed && o < |s.ops| && s.ops[o].role.Closer? && s.ops[o].sock == k && s.ops[o].pc.CloseWait?
    case Exclusive(o) =>
      && k !in s.failed && o < |s.ops| && s.ops[o].role.Closer? && s.ops[o].sock == k
      && Live(s.ops[o]) && !s.ops[o].pc.CloseWait?
      && (k in s.open <==> s.ops[o].pc.CloseSys? || s.ops[o].pc.CloseRemove?)
    case Done => k in s.open <==> k in s.failed
  }

  ghost predicate Listed(s: State) {
    && (forall k :: k in s.failed ==> k < |s.socks|)
    && (forall k :: 0 <= k < |s.socks| ==> ListedOk(s, k))
  }

  lemma CallKeepsListed(s: State, s': State, o: nat, k: nat)
    requires k < |s.socks| && ListedOk(s, k) && SameLists(s, s') && OtherOps(s, s', o) && !s.ops[o].role.Closer?
    ensures k < |s'.socks| && ListedOk(s', k)
  {
  }

  /** Only the closer's own socket can change its place. */
  lemma CloserKeepsListed(s: State, o: nat, c: Choice, k: nat)
    requires s.cur < |s.heap| && ListOk(s) && OpOk(s, o) && s.ops[o].role.Closer? && k < |s.socks| && ListedOk(s, k)
    ensures var s' := Step(s, o, c);
            && |s'.socks| == |s.socks| && ListedOk(s', k)
            && (s'.failed == s.failed || s'.failed == s.failed + {s.ops[o].sock})
  {
    if s.ops[o].pc.CloseRemove? {
      RemoveKeepsListed(s, o, k);
    } else if s.ops[o].pc.CloseWait? || s.ops[o].pc.CloseSys? {
      EarlyKeepsListed(s, o, c, k);
    } else {
      LateKeepsListed(s, o, c, k);
    }
  }

  lemma EarlyKeepsListed(s: State, o: nat, c: Choice, k: nat)
    requires s.cur < |s.heap| && ListOk(s) && OpOk(s, o) && (s.ops[o].pc.CloseWait? || s.ops[o].pc.CloseSys?)
    requires k < |s.socks| && ListedOk(s, k)
    ensures var s' := Step(s, o, c);
            && |s'.socks| == |s.socks| && ListedOk(s', k)
            && (s'.failed == s.failed || s'.failed == s.failed + {s.ops[o].sock})
  {
    hide Remembers, HandlesTemps, Distinct;
  }

  lemma LateKeepsListed(s: State, o: nat, c: Choice, k: nat)
    requires OpOk(s, o) && s.ops[o].role.Closer? && k < |s.socks| && ListedOk(s, k)
    requires !(s.ops[o].pc.CloseWait? || s.ops[o].pc.CloseSys? || s.ops[o].pc.CloseRemove?)
    ensures var s' := Step(s, o, c);
            |s'.socks| == |s.socks| && ListedOk(s', k) && s'.failed == s.failed
  {
    hide Step, Remembers, HandlesTemps;
    LateStep(s, o, c);
  }

  lemma RemoveKeepsListed(s: State, o: nat, k: nat)
    requires s.cur < |s.heap| && ListOk(s) && OpOk(s, o) && s.ops[o].pc.CloseRemove? && k < |s.socks| && ListedOk(s, k)
    ensures var s' := StepCloseRemove(s, o);
            |s'.socks| == |s.socks| && ListedOk(s', k) && s'.failed == s.failed
  {
    hide Remembers, HandlesTemps;
    RemovedKeepsTheRest(s.open, s.ops[o].sock);
  }

  lemma GoKeepsListed(s: State, o: nat, c: Choice, k: nat)
    requires Inv(s) && OpOk(s, o) && k < |s.socks| && ListedOk(s, k)
    ensures var s' := Step(s, o, c);
            && |s'.socks| == |s.socks| && ListedOk(s', k)
            && (s'.failed == s.failed || s'.failed == s.failed + {s.ops[o].sock})
  {
    if s.ops[o].role.Closer? {
      CloserKeepsListed(s, o, c, k);
    } else {
      hide Inv, Step, ListedOk;
      CallKeepsLists(s, o, c);
      GoKeeps(s, o, c);
      CallKeepsListed(s, Step(s, o, c), o, k);
    }
  }

  lemma StepKeepsListed(s: State, m: Move)
    requires Inv(s) && Listed(s)
    ensures Listed(Apply(s, m))
  {
    var s' := Apply(s, m);
    if m.Go? && Ready(s, m.op) {
      assert OpOk(s, m.op);
      GoKeepsListed(s, m.op, m.choice, s.ops[m.op].sock);
      forall k | 0 <= k < |s'.socks| ensures ListedOk(s', k) {
        GoKeepsListed(s, m.op, m.choice, k);
      }
    } else {
      forall k | 0 <= k < |s'.socks| ensures ListedOk(s', k) {
        if k < |s.socks| { assert ListedOk(s, k); }
      }
    }
  }

  lemma ReachableListed(s: State)
    requires Reachable(s)
    ensures Inv(s) && Listed(s)
  {
    var schedule: seq<Move> :| s == Run(Apply, NewInode(), schedule);
    var ok := s => Inv(s) && Listed(s);
    forall s, m | ok(s) ensures ok(Apply(s, m)) {
      StepKeepsInv(s, m);
      StepKeepsListed(s, m);
    }
    RunKeeps(Apply, ok, NewInode(), schedule);
  }

  /** After its Close a socket is on the inode's list if and only if its close(2) failed. */
  lemma ListedExactly(s: State, k: nat)
    requires Reachable(s) && k < |s.socks| && s.socks[k].Done?
    ensures k in s.open <==> k in s.failed
  {
    ReachableListed(s);
    assert ListedOk(s, k);
  }

  /** A close(2) that fails is recorded when it fails, and nothing else is. */
  lemma FailsExactly(s: State, m: Move, k: nat)
    requires Reachable(s) && k !in s.failed
    ensures k in Apply(s, m).failed <==>
              m.Go? && m.op < |s.ops| && s.ops[m.op].sock == k && s.ops[m.op].pc.CloseSys? && !m.choice.Yes?
  {
    ReachableInv(s);
    if m.Go? && m.op < |s.ops| {
      assert OpOk(s, m.op);
      if s.ops[m.op].role.Closer? {
        CloserFailsExactly(s, m.op, m.choice, k);
      } else {
        CallKeepsLists(s, m.op, m.choice);
      }
    }
  }

  lemma CloserFailsExactly(s: State, o: nat, c: Choice, k: nat)
    requires OpOk(s, o) && s.ops[o].role.Closer? && k !in s.failed
    ensures k in Step(s, o, c).failed <==> s.ops[o].sock == k && s.ops[o].pc.CloseSys? && !c.Yes?
  {
    hide Remembers, HandlesTemps, HoldsSocket;
  }

  /** Every call on the inode has returned, its goroutines have ended, and every socket was closed. */
  ghost predicate AllOver(s: State) {
    && (forall o :: 0 <= o < |s.ops| ==> !Live(s.ops[o]))
    && (forall k :: 0 <= k < |s.socks| ==> !s.socks[k].Open?)
  }

  /** When all is over the inode ends Closed, its list empty, if and only if no close(2) failed; and
      a temporary socket is left open if and only if one did, the inode's state holds it, and nobody
      has won its ClosingIncRef. */
  lemma LeakExactly(s: State, t: nat)
    requires Reachable(s) && t < |s.temps| && AllOver(s)
    ensures s.cur < |s.heap|
    ensures s.open == [] <==> s.failed == {}
    ensures s.heap[s.cur].Closed? <==> s.failed == {}
    ensures s.temps[t].closes == 0 <==> s.failed != {} && s.heap[s.cur].Bind() == Some(t) && !s.temps[t].closing
  {
    ReachableListed(s);
    assert TempOk(s, t);
    forall k | 0 <= k < |s.socks| ensures k in s.open <==> k in s.failed {
      assert ListedOk(s, k);
    }
    if s.failed != {} {
      var k :| k in s.failed;
      assert k in s.open;
    }
    if s.open != [] {
      assert s.open[0] in s.open;
    }
  }

  // ---- what a step does to a temporary socket ----

  /** The steps that may call close(2) on temporary socket t. */
  predicate MayClose(s: State, op: Op, c: Choice, t: nat) {
    || (op.pc.BindSys? && op.pc.own && op.pc.temp == t && !c.Yes?)
    || op.pc == BindUndo(t)
    || (op.pc.ListenKill? && op.pc.temp == t)
    || (op.pc == Shutting(t) && forall o :: 0 <= o < |s.ops| ==> Refers(s, s.ops[o]) != Some(t))
  }

  /** About to try ClosingIncRef on t. */
  predicate Tries(op: Op, t: nat) {
    (op.pc.ListenTake? || op.pc.Shut?) && op.pc.temp == t
  }

  /** What became of temporary socket t between s and s'. */
  ghost predicate TempMoves(s: State, s': State, t: nat, closes: bool, marks: bool) {
    && t < |s.temps| <= |s'.temps|
    && s'.temps[t].closes == s.temps[t].closes + (if closes then 1 else 0)
    && (s'.temps[t].closing <==> s.temps[t].closing || marks)
  }

  /** It is closed, and its ClosingIncRef is won, by the steps that say so and by no others. */
  lemma TempMovesExactly(s: State, o: nat, c: Choice, t: nat)
    requires Ready(s, o) && t < |s.temps|
    ensures TempMoves(s, Step(s, o, c), t, MayClose(s, s.ops[o], c, t), Tries(s.ops[o], t))
  {
    var pc := s.ops[o].pc;
    if pc.BindSys? || pc.BindUndo? || pc.ListenKill? || pc.Shutting? {
      KillersClose(s, o, c, t);
    } else if pc.ListenTake? || pc.Shut? {
      TakersMark(s, o, c, t);
    } else if pc.BindPrep? || pc.BindFailed? || pc.BindCas? || pc.ListenPrep? || pc.ListenCas? {
      BindOrListenLeaves(s, o, c, t);
    } else if pc.CloseLoad? || pc.CloseCas? || pc.Finished? {
      CloseLeaves(s, o, c, t);
    } else if pc.CloseWait? || pc.CloseSys? || pc.CloseRemove? {
      hide LockReturns, Removed;
      assert Step(s, o, c).temps == s.temps;
    } else {
      ConnectLeaves(s, o, c, t);
    }
  }

  lemma KillersClose(s: State, o: nat, c: Choice, t: nat)
    requires Ready(s, o) && t < |s.temps|
    requires s.ops[o].pc.BindSys? || s.ops[o].pc.BindUndo? || s.ops[o].pc.ListenKill? || s.ops[o].pc.Shutting?
    ensures TempMoves(s, Step(s, o, c), t, MayClose(s, s.ops[o], c, t), false)
  {
  }

  lemma TakersMark(s: State, o: nat, c: Choice, t: nat)
    requires Ready(s, o) && t < |s.temps| && (s.ops[o].pc.ListenTake? || s.ops[o].pc.Shut?)
    ensures TempMoves(s, Step(s, o, c), t, false, Tries(s.ops[o], t))
  {
  }

  lemma BindOrListenLeaves(s: State, o: nat, c: Choice, t: nat)
    requires Ready(s, o) && t < |s.temps|
    requires s.ops[o].pc.BindPrep? || s.ops[o].pc.BindFailed? || s.ops[o].pc.BindCas? || s.ops[o].pc.ListenPrep?
             || s.ops[o].pc.ListenCas?
    ensures TempMoves(s, Step(s, o, c), t, false, false)
  {
  }

  lemma CloseLeaves(s: State, o: nat, c: Choice, t: nat)
    requires Ready(s, o) && t < |s.temps|
    requires s.ops[o].pc.CloseLoad? || s.ops[o].pc.CloseCas? || s.ops[o].pc.Finished?
    ensures TempMoves(s, Step(s, o, c), t, false, false)
  {
  }

  lemma ConnectLeaves(s: State, o: nat, c: Choice, t: nat)
    requires Ready(s, o) && t < |s.temps|
    requires s.ops[o].pc.Start? || s.ops[o].pc.ConnectPrep? || s.ops[o].pc.ConnectCas? || s.ops[o].pc.ConnectDial?
             || s.ops[o].pc.ConnectTail? || s.ops[o].pc.Dialing? || s.ops[o].pc.DialCas?
    ensures TempMoves(s, Step(s, o, c), t, false, false)
  {
  }

  // ---- a state that holds a socket somebody closes ----

  /** The current state holds temporary socket t although its ClosingIncRef was won. */
  predicate HoldsDoomed(s: State, t: nat) {
    s.cur < |s.heap| && s.heap[s.cur].Bind() == Some(t) && t < |s.temps| && s.temps[t].closing
  }

  /** Connected, Listening or Closed. */
  predicate Unbound(s: State) {
    s.cur < |s.heap| && !s.heap[s.cur].Passive? && !s.heap[s.cur].Connecting?
  }

  /** A swap passes on the socket the state held, or drops it, or brings in one that the swapper has
      made itself, on which nobody else can have won anything. */
  ghost predicate PassesOn(s: State, s': State) {
    && s.cur < |s.heap| && s'.cur < |s'.heap|
    && var was, now := s.heap[s.cur].Bind(), s'.heap[s'.cur].Bind();
       || now == was || Unbound(s')
       || (was.None? && now.Some? && now.value < |s'.temps| && !s'.temps[now.value].closing)
  }

  lemma GoPassesOn(s: State, o: nat, c: Choice)
    requires s.cur < |s.heap| && OpOk(s, o)
    ensures PassesOn(s, Step(s, o, c))
  {
    hide HoldsSocket;
    var pc := s.ops[o].pc;
    if s.ops[o].role.Closer? {
      CloserInstalls(s, o, c);
    } else if pc.ConnectCas? || pc.DialCas? {
      ConnectPassesOn(s, o, c);
    } else if pc.BindFailed? || pc.BindCas? || pc.ListenCas? {
      BindOrListenPassesOn(s, o, c);
    } else {
      OtherCallsInstallNone(s, o, c);
    }
  }

  lemma ConnectPassesOn(s: State, o: nat, c: Choice)
    requires s.cur < |s.heap| && Ready(s, o) && Remembers(s, o) && HandlesTemps(s, o)
    requires s.ops[o].pc.ConnectCas? || s.ops[o].pc.DialCas?
    ensures PassesOn(s, Step(s, o, c))
  {
  }

  lemma BindOrListenPassesOn(s: State, o: nat, c: Choice)
    requires s.cur < |s.heap| && Ready(s, o) && Remembers(s, o) && HandlesTemps(s, o)
    requires s.ops[o].pc.BindFailed? || s.ops[o].pc.BindCas? || s.ops[o].pc.ListenCas?
    ensures PassesOn(s, Step(s, o, c))
  {
  }

  /** It comes to hold such a socket exactly when a Listen, or the goroutine of a Connect, wins
      ClosingIncRef on the socket it holds. */
  lemma DoomedExactly(s: State, m: Move, t: nat)
    requires Reachable(s) && !HoldsDoomed(s, t)
    ensures HoldsDoomed(Apply(s, m), t) <==>
              && m.Go? && m.op < |s.ops| && Tries(s.ops[m.op], t)
              && s.cur < |s.heap| && s.heap[s.cur].Bind() == Some(t)
  {
    ReachableInv(s);
    if m.Go? && m.op < |s.ops| {
      assert OpOk(s, m.op);
      hide Inv;
      GoPassesOn(s, m.op, m.choice);
      if t < |s.temps| { TempMovesExactly(s, m.op, m.choice, t); }
      if Tries(s.ops[m.op], t) { TryingInstallsNone(s, m.op, m.choice); }
      hide Step, OpOk;
      assert Apply(s, m) == Step(s, m.op, m.choice);
    }
  }

  lemma TryingInstallsNone(s: State, o: nat, c: Choice)
    requires Ready(s, o) && (s.ops[o].pc.ListenTake? || s.ops[o].pc.Shut?)
    ensures Step(s, o, c).cur == s.cur && Step(s, o, c).heap == s.heap
  {
  }

  lemma DoomedStays(s: State, m: Move, t: nat)
    requires Inv(s) && (HoldsDoomed(s, t) || Unbound(s))
    ensures HoldsDoomed(Apply(s, m), t) || Unbound(Apply(s, m))
  {
    if m.Go? && Ready(s, m.op) {
      assert OpOk(s, m.op);
      GoKeeps(s, m.op, m.choice);
      hide Inv;
      GoPassesOn(s, m.op, m.choice);
      if Unbound(s) {
        if s.ops[m.op].role.Closer? { CloserInstalls(s, m.op, m.choice); } else { CallInstalls(s, m.op, m.choice); }
      } else {
        TempMovesExactly(s, m.op, m.choice, t);
      }
      hide Step, OpOk;
    }
  }

  /** From then on the inode is bound to that socket, by whatever Bind or dial swaps it back in,
      until it connects, listens or closes: it never gets another one. */
  lemma {:induction false} DoomedForever(s: State, ms: seq<Move>, t: nat)
    requires Inv(s) && (HoldsDoomed(s, t) || Unbound(s))
    ensures HoldsDoomed(Run(Apply, s, ms), t) || Unbound(Run(Apply, s, ms))
    decreases |ms|
  {
    if ms != [] {
      StepKeepsInv(s, ms[0]);
      DoomedStays(s, ms[0], t);
      DoomedForever(Apply(s, ms[0]), ms[1..], t);
    }
  }

  /** One socket, bound by a Bind call that has returned. */
  function BoundInode(): State {
    State([Passive(None), Passive(Some(0))], 1, [Open], [0], [Temp(false, 0, true, InState)],
          [Op(Foreground, 0, Finished)], NoPanic, None, false, {})
  }

  lemma BoundIsReachable()
    ensures Run(Apply, NewInode(), [Begin(0, BindCall), Go(0, Yes), Go(0, Yes), Go(0, Yes), Go(0, Yes), Join(0)]) == BoundInode()
  {
    var s0 := NewInode();
    var s1 := Apply(s0, Begin(0, BindCall));
    var s2 := Apply(s1, Go(0, Yes));
    assert s2.ops == [Op(Foreground, 0, BindPrep(0))];
    var s3 := Apply(s2, Go(0, Yes));
    assert s3.ops == [Op(Foreground, 0, BindSys(0, 0, true))] && s3.temps == [Temp(false, 0, false, ByOp(0))];
    RunThree(s0, [Begin(0, BindCall), Go(0, Yes), Go(0, Yes)]);
    BoundRest(s3);
    RunAppend(Apply, s0, [Begin(0, BindCall), Go(0, Yes), Go(0, Yes)], [Go(0, Yes), Go(0, Yes), Join(0)]);
    assert [Begin(0, BindCall), Go(0, Yes), Go(0, Yes)] + [Go(0, Yes), Go(0, Yes), Join(0)]
        == [Begin(0, BindCall), Go(0, Yes), Go(0, Yes), Go(0, Yes), Go(0, Yes), Join(0)];
  }

  lemma BoundRest(s: State)
    requires s == NewInode().(ops := [Op(Foreground, 0, BindSys(0, 0, true))], temps := [Temp(false, 0, false, ByOp(0))])
    ensures Run(Apply, s, [Go(0, Yes), Go(0, Yes), Join(0)]) == BoundInode()
  {
    var s1 := Apply(s, Go(0, Yes));
    assert s1.ops == [Op(Foreground, 0, BindCas(0, 0, true))];
    var s2 := Apply(s1, Go(0, Yes));
    assert s2 == BoundInode();
    assert Apply(s2, Join(0)) == s2;
    RunThree(s, [Go(0, Yes), Go(0, Yes), Join(0)]);
  }

  /** It does happen. */
  lemma LeakHappens()
    ensures exists s ::
      && Reachable(s) && |s.temps| == 1 && s.temps[0].closes == 0
      && (forall o :: 0 <= o < |s.ops| ==> !Live(s.ops[o]))
      && (forall k :: 0 <= k < |s.socks| ==> s.socks[k].Done?)
  {
    BoundIsReachable();
    FailedCloseLeaks();
    RunAppend(Apply, NewInode(), [Begin(0, BindCall), Go(0, Yes), Go(0, Yes), Go(0, Yes), Go(0, Yes), Join(0)],
              [BeginClose(0), Go(1, Yes), Go(1, No)]);
    assert Reachable(LeakedInode());
  }

  function LeakedInode(): State {
    BoundInode().(socks := [Done], ops := [Op(Foreground, 0, Finished), Op(Closer, 0, Finished)], failed := {0})
  }

  lemma FailedCloseLeaks()
    ensures Run(Apply, BoundInode(), [BeginClose(0), Go(1, Yes), Go(1, No)]) == LeakedInode()
  {
    var s0 := BoundInode();
    var s1 := Apply(s0, BeginClose(0));
    assert s1 == s0.(socks := [Closing(1)], ops := [Op(Foreground, 0, Finished), Op(Closer, 0, CloseWait)]);
    var s2 := Apply(s1, Go(1, Yes));
    assert s2 == s0.(socks := [Exclusive(1)], ops := [Op(Foreground, 0, Finished), Op(Closer, 0, CloseSys)]);
    CloseFails(s2);
    RunThree(s0, [BeginClose(0), Go(1, Yes), Go(1, No)]);
  }

  lemma CloseFails(s: State)
    requires s == BoundInode().(socks := [Exclusive(1)], ops := [Op(Foreground, 0, Finished), Op(Closer, 0, CloseSys)])
    ensures Apply(s, Go(1, No)) == LeakedInode()
  {
    assert Apply(s, Go(1, No)).ops == LeakedInode().ops;
  }

  lemma RunThree(s: State, ms: seq<Move>)
    requires |ms| == 3
    ensures Run(Apply, s, ms) == Apply(Apply(Apply(s, ms[0]), ms[1]), ms[2])
  {
    var s1 := Apply(s, ms[0]);
    var s2 := Apply(s1, ms[1]);
    assert ms[1..][1..] == [ms[2]];
    assert Run(Apply, s2, [ms[2]]) == Run(Apply, Apply(s2, ms[2]), []) by { assert [ms[2]][1..] == []; }
  }

  // ---- bind(2) on a socket that Listen has closed ----

  /** A Bind that finds a parked temporary socket takes its reference while it is open. */
  lemma BindBeginsOnOpen(s: State, o: nat, c: Choice)
    requires Reachable(s) && Ready(s, o) && s.ops[o].pc.BindPrep?
    ensures var s' := Apply(s, Go(o, c));
            o < |s'.ops| && (s'.ops[o].pc.BindSys? ==>
              var t := s'.ops[o].pc.temp; t < |s'.temps| && s'.temps[t].closes == 0 && !s'.temps[t].closing)
  {
    ReachableInv(s);
    assert OpOk(s, o);
    var h := s.ops[o].pc.prev;
    if s.heap[h].Bind().Some? {
      assert TempOk(s, s.heap[h].Bind().value);
    }
  }

  /** Between that and its bind(2) the descriptor is closed under the Bind if and only if a Listen,
      having won the socket's ClosingIncRef, makes its close(2): everybody else waits in Lock for the
      Bind's reference. A socket that the Bind has made itself stays open. */
  lemma ClosedUnderBindExactly(s: State, m: Move, o: nat)
    requires Reachable(s) && o < |s.ops| && s.ops[o].pc.BindSys? && !(m.Go? && m.op == o)
    ensures var t, s' := s.ops[o].pc.temp, Apply(s, m);
            && t < |s.temps| <= |s'.temps| && o < |s'.ops| && s'.ops[o] == s.ops[o]
            && (s.ops[o].pc.own ==> s.temps[t].closes == 0)
            && (s.temps[t].closes == 0 ==>
                  (s'.temps[t].closes == 1 <==>
                     m.Go? && m.op < |s.ops| && s.ops[m.op].pc.ListenKill? && s.ops[m.op].pc.temp == t))
  {
    ReachableInv(s);
    assert OpOk(s, o);
    if m.Go? && m.op < |s.ops| {
      assert OpOk(s, m.op);
      GoKeeps(s, m.op, m.choice);
      ClosesUnderBind(s, m.op, m.choice, o);
    }
  }

  lemma ClosesUnderBind(s: State, i: nat, c: Choice, o: nat)
    requires OpOk(s, i) && OpOk(s, o) && i != o && s.ops[o].pc.BindSys?
    ensures var t := s.ops[o].pc.temp;
            && t < |Step(s, i, c).temps|
            && Step(s, i, c).temps[t].closes
               == s.temps[t].closes + (if s.ops[i].pc.ListenKill? && s.ops[i].pc.temp == t then 1 else 0)
  {
    hide Step, HoldsSocket, Remembers;
    assert Refers(s, s.ops[o]) == Some(s.ops[o].pc.temp);
    TempMovesExactly(s, i, c, s.ops[o].pc.temp);
  }

  /** A Listen has closed the parked socket; a Bind, which holds a reference on it, has yet to make
      its bind(2). */
  function RacedInode(): State {
    BoundInode().(temps := [Temp(true, 1, true, ByOp(2))],
                  ops := [Op(Foreground, 0, Finished), Op(Foreground, 0, BindSys(1, 0, false)), Op(Foreground, 0, ListenCas(1))])
  }

  lemma BindAndListenRace()
    ensures Run(Apply, BoundInode(), [Begin(0, BindCall), Go(1, Yes), Go(1, Yes)] + [Begin(0, ListenCall), Go(2, Yes), Go(2, Yes)]
                                     + [Go(2, Yes), Go(2, Yes)]) == RacedInode()
  {
    var s0 := BoundInode();
    var done := Op(Foreground, 0, Finished);
    var s1 := Apply(s0, Begin(0, BindCall));
    assert s1.ops == [done, Op(Foreground, 0, Start(BindCall))];
    var s2 := Apply(s1, Go(1, Yes));
    assert s2.ops == [done, Op(Foreground, 0, BindPrep(1))];
    var s3 := Apply(s2, Go(1, Yes));
    assert s3.ops == [done, Op(Foreground, 0, BindSys(1, 0, false))];
    RunThree(s0, [Begin(0, BindCall), Go(1, Yes), Go(1, Yes)]);
    ListenRaces(s3);
    RunAppend(Apply, s0, [Begin(0, BindCall), Go(1, Yes), Go(1, Yes)], [Begin(0, ListenCall), Go(2, Yes), Go(2, Yes)]);
    RunAppend(Apply, s0, [Begin(0, BindCall), Go(1, Yes), Go(1, Yes)] + [Begin(0, ListenCall), Go(2, Yes), Go(2, Yes)],
              [Go(2, Yes), Go(2, Yes)]);
  }

  lemma ListenRaces(s: State)
    requires s == BoundInode().(ops := [Op(Foreground, 0, Finished), Op(Foreground, 0, BindSys(1, 0, false))])
    ensures Run(Apply, Run(Apply, s, [Begin(0, ListenCall), Go(2, Yes), Go(2, Yes)]), [Go(2, Yes), Go(2, Yes)])
            == RacedInode()
  {
    var s1 := Apply(s, Begin(0, ListenCall));
    assert s1.ops == s.ops + [Op(Foreground, 0, Start(ListenCall))];
    var s2 := Apply(s1, Go(2, Yes));
    assert s2.ops == s.ops + [Op(Foreground, 0, ListenPrep(1))];
    var s3 := Apply(s2, Go(2, Yes));
    assert s3.ops == s.ops + [Op(Foreground, 0, ListenTake(1, 0))];
    assert s3 == s.(ops := s3.ops);
    RunThree(s, [Begin(0, ListenCall), Go(2, Yes), Go(2, Yes)]);
    hide Apply;
    ListenCloses(s, s3);
  }

  lemma ListenCloses(s: State, s': State)
    requires s == BoundInode().(ops := [Op(Foreground, 0, Finished), Op(Foreground, 0, BindSys(1, 0, false))])
    requires s' == s.(ops := s.ops + [Op(Foreground, 0, ListenTake(1, 0))])
    ensures Run(Apply, s', [Go(2, Yes), Go(2, Yes)]) == RacedInode()
  {
    var s1 := Apply(s', Go(2, Yes));
    assert s1.ops == s.ops + [Op(Foreground, 0, ListenKill(1, 0))] && s1.temps == [Temp(true, 0, true, ByOp(2))];
    var s2 := Apply(s1, Go(2, Yes));
    assert s2.ops == RacedInode().ops && s2.temps == RacedInode().temps;
    RunTwo(Apply, s', Go(2, Yes), Go(2, Yes));
  }

  /** It happens; and if that bind(2) is taken to succeed, the Bind even swaps in a Passive state that
      refers to the closed socket, the Listen fails, and no later Bind gets a reference. */
  lemma BindOnClosedHappens()
    ensures Reachable(RacedInode())
    ensures exists s :: Reachable(s) && s.cur < |s.heap| && s.heap[s.cur] == Passive(Some(0)) && |s.temps| == 1
                        && s.temps[0].closes == 1 && s.open != [] && forall o :: 0 <= o < |s.ops| ==> !Live(s.ops[o])
  {
    hide Apply;
    BoundIsReachable();
    BindAndListenRace();
    var before := [Begin(0, BindCall), Go(0, Yes), Go(0, Yes), Go(0, Yes), Go(0, Yes), Join(0)];
    var race := [Begin(0, BindCall), Go(1, Yes), Go(1, Yes)] + [Begin(0, ListenCall), Go(2, Yes), Go(2, Yes)]
                + [Go(2, Yes), Go(2, Yes)];
    var after := [Go(1, Yes), Go(1, Yes), Go(2, Yes)];
    RunAppend(Apply, NewInode(), before, race);
    assert Reachable(RacedInode());
    RacedEnds();
    RunAppend(Apply, NewInode(), before + race, after);
    assert Reachable(Run(Apply, RacedInode(), after));
  }

  lemma RacedEnds()
    ensures var s := Run(Apply, RacedInode(), [Go(1, Yes), Go(1, Yes), Go(2, Yes)]);
            && s.cur < |s.heap| && s.heap[s.cur] == Passive(Some(0)) && |s.temps| == 1
            && s.temps[0].closes == 1 && s.open != [] && forall o :: 0 <= o < |s.ops| ==> !Live(s.ops[o])
  {
    var s0 := RacedInode();
    var s1 := Apply(s0, Go(1, Yes));
    assert s1.ops == s0.ops[1 := Op(Foreground, 0, BindCas(1, 0, false))];
    var s2 := Apply(s1, Go(1, Yes));
    assert s2.ops == s0.ops[1 := Op(Foreground, 0, Finished)] && s2.heap == s0.heap + [Passive(Some(0))] && s2.cur == 2;
    var s3 := Apply(s2, Go(2, Yes));
    RunThree(s0, [Go(1, Yes), Go(1, Yes), Go(2, Yes)]);
  }
}
