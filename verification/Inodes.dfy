// cmd/run/socket/inode.go as objects, and the loop with which the last Close closes the inode.
module Inodes {
  import opened Guards
  import opened Options
  import opened Schedules
  import opened Sockets
  import opened SocketSteps
  import opened SocketRuns

  /** The list of open sockets, guarded by the inode's mutex. */
  class Inode {
    const number: nat
    var open: seq<nat>

    constructor (number: nat)
      ensures this.number == number && open == []
    {
      this.number := number;
      open := [];
    }

    method Add(sock: nat)
      modifies this
      ensures open == old(open) + [sock]
    {
      open := open + [sock];
    }

    /** panicked: the "untrack" panics; the list is then as it was. */
    method Remove(sock: nat) returns (last: bool, panicked: bool)
      modifies this
      ensures panicked == (sock !in old(open))
      ensures last == (old(open) == [sock])
      ensures open == Removed(old(open), sock)
    {
      var size := |open|;
      if size == 1 {
        if open[0] != sock {
          return false, true;
        }
        assert IndexOf(open, sock) == 0;
        open := [];
        return true, false;
      }
      var i := 0;
      while i < size
        invariant 0 <= i <= size && open == old(open) && sock !in open[..i]
      {
        if open[i] == sock {
          IndexIs(open, sock, i);
          if i < size - 1 {
            open := open[i := open[size - 1]][size - 1 := open[i]];
          }
          open := open[..size - 1];
          assert open == Removed(old(open), sock);
          return false, false;
        }
        i := i + 1;
      }
      return false, true;
    }
  }

  lemma {:induction false} IndexIs(open: seq<nat>, k: nat, i: nat)
    requires i < |open| && open[i] == k && k !in open[..i]
    ensures IndexOf(open, k) == i
  {
    if i > 0 {
      assert open[0] == open[..i][0];
      assert open[1..][..i - 1] == open[..i][1..];
      IndexIs(open[1..], k, i - 1);
    }
  }

  /** InodeTable: inode numbers to the inodes known to the engine. */
  class InodeTable {
    var known: map<nat, Inode>

    constructor ()
      ensures known == map[]
    {
      known := map[];
    }

    method Get(number: nat) returns (ino: Inode?)
      ensures if number in known then ino == known[number] else ino == null
    {
      if number in known {
        return known[number];
      }
      return null;
    }

    /** panicked: another inode is known by this number. The fast path returns without looking,
        so a panic takes a second inode registered between the two reads of the table. */
    method Add(ino: Inode, between: map<nat, Inode>) returns (panicked: bool)
      requires forall n :: n in between ==> between[n].number == n
      modifies this
      ensures ino.number in old(known) ==> known == old(known) && !panicked
      ensures ino.number !in old(known) ==>
                && panicked == (ino.number in between && between[ino.number] != ino)
                && known == old(known) + between + (if ino.number in between then map[] else map[ino.number := ino])
    {
      var old0 := Get(ino.number);
      if old0 != null {
        return false;
      }
      known := known + between;
      if ino.number in known {
        return known[ino.number] != ino;
      }
      known := known[ino.number := ino];
      return false;
    }
  }

  /** The inode with everything that runs on it, as one object. */
  class World {
    var heap: seq<ImState>
    var cur: nat
    var socks: seq<Phase>
    var open: seq<nat>
    var temps: seq<Temp>
    var ops: seq<Op>
    var panic: Panic
    var lastOp: Option<nat>
    var installed: bool
    var failed: set<nat>

    function View(): State
      reads this
    {
      State(heap, cur, socks, open, temps, ops, panic, lastOp, installed, failed)
    }

    constructor ()
      ensures View() == NewInode()
    {
      heap, cur, socks, open, temps, ops := [Passive(None)], 0, [Open], [0], [], [];
      panic, lastOp, installed, failed := NoPanic, None, false, {};
    }

    method Become(s: State)
      modifies this
      ensures View() == s
    {
      heap, cur, socks, open, temps, ops := s.heap, s.cur, s.socks, s.open, s.temps, s.ops;
      panic, lastOp, installed, failed := s.panic, s.lastOp, s.installed, s.failed;
    }

    method Interfere(ms: seq<Move>)
      modifies this
      ensures View() == Run(Apply, old(View()), ms)
    {
      hide Apply, View;
      ghost var s0 := View();
      for k := 0 to |ms|
        invariant View() == Run(Apply, s0, ms[..k])
      {
        RunNext(Apply, s0, ms, k);
        Become(Apply(View(), ms[k]));
      }
      assert ms[..|ms|] == ms;
    }

    method Load(o: nat)
      requires Inv(View()) && o < |ops| && ops[o].pc.CloseLoad?
      modifies this
      ensures View() == Apply(old(View()), Go(o, Yes)) && Inv(View())
      ensures o < |ops| && ops[o].pc == CloseCas(old(cur)) && cur == old(cur)
    {
      assert OpOk(View(), o);
      GoKeeps(View(), o, Yes);
      var prev := cur;
      ops := ops[o := ops[o].(pc := CloseCas(prev))];
    }

    /** Load, let the others run, and try to swap. */
    method Attempt(o: nat, burst: seq<Move>) returns (done: bool, ghost trace: seq<Move>)
      requires Inv(View()) && o < |ops| && ops[o].pc.CloseLoad? && Foreign(burst, o)
      modifies this
      ensures View() == Run(Apply, old(View()), trace) && Inv(View()) && o < |ops|
      ensures burst == [] ==> done
      ensures !done ==> ops[o].pc.CloseLoad?
      ensures done ==> cur < |heap| && heap[cur].Closed? && lastOp == Some(o)
      ensures done ==> ops[o].pc.Shut? || ops[o].pc.Finished?
    {
      hide Apply;
      ghost var s0 := View();
      Load(o);
      RunThen(Apply, s0, [], Go(o, Yes));
      ForeignKeeps(View(), burst, o);
      RunKeepsInv(View(), burst);
      RunAppend(Apply, s0, [Go(o, Yes)], burst);
      Interfere(burst);
      RunThen(Apply, s0, [Go(o, Yes)] + burst, Go(o, Yes));
      assert [] + [Go(o, Yes)] == [Go(o, Yes)];
      trace := [Go(o, Yes)] + burst + [Go(o, Yes)];
      done := Swap(o);
    }

    /** The retry loop of the last Close. bursts[k] is what runs between load and swap k. */
    method InstallClosed(o: nat, bursts: seq<seq<Move>>) returns (ghost trace: seq<Move>)
      requires Inv(View()) && o < |ops| && ops[o].pc.CloseLoad?
      requires forall k :: 0 <= k < |bursts| ==> Foreign(bursts[k], o)
      modifies this
      ensures View() == Run(Apply, old(View()), trace)
      ensures cur < |heap| && heap[cur].Closed? && lastOp == Some(o)
      ensures o < |ops| && (ops[o].pc.Shut? || ops[o].pc.Finished?)
    {
      ghost var s0 := View();
      trace := [];
      var k := 0;
      while true
        invariant 0 <= k <= |bursts| && View() == Run(Apply, s0, trace) && Inv(View())
        invariant o < |ops| && ops[o].pc.CloseLoad?
        decreases |bursts| - k
      {
        var done, more := Attempt(o, if k < |bursts| then bursts[k] else []);
        RunAppend(Apply, s0, trace, more);
        trace := trace + more;
        if done {
          return trace;
        }
        k := k + 1;
      }
    }

    method Swap(o: nat) returns (done: bool)
      requires Inv(View()) && o < |ops| && ops[o].pc.CloseCas?
      modifies this
      ensures View() == Apply(old(View()), Go(o, Yes)) && Inv(View())
      ensures done == (old(cur) == old(ops)[o].pc.prev) && o < |ops|
      ensures !done ==> ops[o].pc.CloseLoad?
      ensures done ==> cur < |heap| && heap[cur].Closed? && lastOp == Some(o)
      ensures done ==> ops[o].pc.Shut? || ops[o].pc.Finished?
    {
      assert OpOk(View(), o);
      GoKeeps(View(), o, Yes);
      done := cur == ops[o].pc.prev;
      if done {
        SwapIn(o);
      } else {
        ops := ops[o := ops[o].(pc := CloseLoad)];
      }
    }

    /** The successful swap. */
    method SwapIn(o: nat)
      requires Inv(View()) && OpOk(View(), o) && ops[o].pc.CloseCas? && ops[o].pc.prev == cur
      modifies this
      ensures View() == Step(old(View()), o, Yes)
      ensures cur < |heap| && heap[cur].Closed? && lastOp == Some(o)
      ensures o < |ops| && (ops[o].pc.Shut? || ops[o].pc.Finished?)
    {
      hide Inv, Remembers, HandlesTemps;
      var bind := heap[cur].Bind();
      heap, cur, installed := heap + [Closed], |heap|, true;
      match bind {
        case None =>
          socks := socks[ops[o].sock := Done];
          ops := ops[o := ops[o].(pc := Finished)];
        case Some(t) =>
          ops := ops[o := ops[o].(pc := Shut(t, false))];
          if !temps[t].closing {
            temps := temps[t := temps[t].(owner := ByOp(o))];
          }
      }
    }
  }

  /** Moves that are not operation o's. */
  predicate Foreign(ms: seq<Move>, o: nat) {
    forall k :: 0 <= k < |ms| ==> !(ms[k].Go? && ms[k].op == o)
  }

  lemma {:induction false} ForeignKeeps(s: State, ms: seq<Move>, o: nat)
    requires Inv(s) && o < |s.ops| && Foreign(ms, o)
    ensures o < |Run(Apply, s, ms).ops| && Run(Apply, s, ms).ops[o] == s.ops[o]
    decreases |ms|
  {
    if ms != [] {
      StepKeepsInv(s, ms[0]);
      ForeignStepKeeps(s, ms[0], o);
      ForeignKeeps(Apply(s, ms[0]), ms[1..], o);
    }
  }

  lemma ForeignStepKeeps(s: State, m: Move, o: nat)
    requires Inv(s) && o < |s.ops| && !(m.Go? && m.op == o)
    ensures o < |Apply(s, m).ops| && Apply(s, m).ops[o] == s.ops[o]
  {
    if m.Go? && Ready(s, m.op) {
      assert OpOk(s, m.op);
      GoKeeps(s, m.op, m.choice);
    }
  }
}
