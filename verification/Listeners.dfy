// A listening socket's backlog as the dispatcher's goroutine and Accept use it.
module Listeners {
  import opened Schedules
  import opened Backlogs

  predicate NotDispatching(ms: seq<Move>, c: nat) {
    forall k :: 0 <= k < |ms| ==> ms[k] != Dispatch(c)
  }

  predicate NotAccepting(ms: seq<Move>, c: nat) {
    forall k :: 0 <= k < |ms| ==> ms[k] != Accept(c)
  }

  lemma ChannelsOf(s: State, c: nat)
    requires Inv(s) && c < |s.conns|
    ensures ConnOk(s, c)
  {
  }

  lemma StepSparesDispatcher(s: State, m: Move, c: nat)
    requires c < |s.conns| && m != Dispatch(c)
    ensures c < |Kernel(s, m).conns|
    ensures Kernel(s, m).conns[c].dispatcher == s.conns[c].dispatcher && Kernel(s, m).conns[c].addr == s.conns[c].addr
  {
  }

  lemma StepSparesAccepter(s: State, m: Move, c: nat)
    requires c < |s.conns| && m != Accept(c)
    ensures c < |Kernel(s, m).conns|
    ensures Kernel(s, m).conns[c].accepter == s.conns[c].accepter && Kernel(s, m).conns[c].addr == s.conns[c].addr
  {
  }

  lemma {:induction false} OthersSpareDispatcher(s: State, ms: seq<Move>, c: nat)
    requires Inv(s) && c < |s.conns| && NotDispatching(ms, c)
    ensures var s' := Run(Kernel, s, ms);
            Inv(s') && c < |s'.conns| && s'.conns[c].dispatcher == s.conns[c].dispatcher && s'.conns[c].addr == s.conns[c].addr
    decreases |ms|
  {
    if ms != [] {
      StepKeepsInv(s, ms[0]);
      StepSparesDispatcher(s, ms[0], c);
      OthersSpareDispatcher(Kernel(s, ms[0]), ms[1..], c);
    }
  }

  lemma {:induction false} OthersSpareAccepter(s: State, ms: seq<Move>, c: nat)
    requires Inv(s) && c < |s.conns| && NotAccepting(ms, c)
    ensures var s' := Run(Kernel, s, ms);
            Inv(s') && c < |s'.conns| && s'.conns[c].accepter == s.conns[c].accepter && s'.conns[c].addr == s.conns[c].addr
    decreases |ms|
  {
    if ms != [] {
      StepKeepsInv(s, ms[0]);
      StepSparesAccepter(s, ms[0], c);
      OthersSpareAccepter(Kernel(s, ms[0]), ms[1..], c);
    }
  }

  class Listener {
    var backlog: map<Address, nat>
    var channels: seq<seq<nat>>
    var conns: seq<Connection>

    function View(): State
      reads this
    {
      State(backlog, channels, conns)
    }

    constructor ()
      ensures View() == Init()
    {
      backlog, channels, conns := map[], [], [];
    }

    method Interfere(ms: seq<Move>)
      modifies this
      ensures View() == Run(Kernel, old(View()), ms)
    {
      for k := 0 to |ms|
        invariant View() == Run(Kernel, old(View()), ms[..k])
      {
        RunNext(Kernel, old(View()), ms, k);
        var s := Kernel(View(), ms[k]);
        backlog, channels, conns := s.backlog, s.channels, s.conns;
      }
      assert ms[..|ms|] == ms;
    }

    /** LoadOrStore: the other party's channel if it was here first, else one's own. */
    method LoadOrStore(addr: Address, mine: nat) returns (ch: nat, loaded: bool)
      modifies this`backlog
      ensures loaded == (addr in old(backlog))
      ensures if loaded then ch == old(backlog)[addr] && backlog == old(backlog)
              else ch == mine && backlog == old(backlog)[addr := mine]
    {
      loaded := addr in backlog;
      if loaded {
        ch := backlog[addr];
      } else {
        ch, backlog := mine, backlog[addr := mine];
      }
    }

    method LookUp(c: nat) returns (ch: nat, loaded: bool)
      requires Inv(View()) && c < |conns| && conns[c].dispatcher.Looking?
      modifies this
      ensures View() == Kernel(old(View()), Dispatch(c)) && Inv(View())
      ensures c < |conns| && conns[c].dispatcher == if loaded then Deleting(ch) else Sending(ch)
    {
      StepKeepsInv(View(), Dispatch(c));
      ch, loaded := LoadOrStore(conns[c].addr, 2 * c);
      conns := conns[c := conns[c].(dispatcher := if loaded then Deleting(ch) else Sending(ch))];
    }

    method Delete(c: nat)
      requires Inv(View()) && c < |conns| && conns[c].dispatcher.Deleting?
      modifies this
      ensures View() == Kernel(old(View()), Dispatch(c)) && Inv(View())
      ensures c < |conns| && conns[c].dispatcher == Sending(old(conns[c]).dispatcher.ch)
    {
      StepKeepsInv(View(), Dispatch(c));
      backlog, conns := backlog - {conns[c].addr}, conns[c := conns[c].(dispatcher := Sending(conns[c].dispatcher.ch))];
    }

    /** The send finds the channel empty. */
    method Send(c: nat)
      requires Inv(View()) && c < |conns| && conns[c].dispatcher.Sending?
      modifies this
      ensures View() == Kernel(old(View()), Dispatch(c)) && Inv(View())
      ensures c < |conns| && conns[c].dispatcher == Sent(old(conns[c]).dispatcher.ch)
      ensures conns[c].dispatcher.ch < |channels| && channels[conns[c].dispatcher.ch] == [c]
    {
      ChannelsOf(View(), c);
      StepKeepsInv(View(), Dispatch(c));
      var ch := conns[c].dispatcher.ch;
      channels, conns := channels[ch := [c]], conns[c := conns[c].(dispatcher := Sent(ch))];
    }

    /** The dispatcher from its lookup on: it always gets to leave its proxy on a channel. */
    method Hand(c: nat, beforeDelete: seq<Move>, beforeSend: seq<Move>) returns (ch: nat, ghost trace: seq<Move>)
      requires Inv(View()) && c < |conns| && conns[c].dispatcher.Looking?
      requires NotDispatching(beforeDelete, c) && NotDispatching(beforeSend, c)
      modifies this
      ensures View() == Run(Kernel, old(View()), trace) && Inv(View())
      ensures c < |conns| && conns[c].dispatcher == Sent(ch) && ch < |channels| && channels[ch] == [c]
    {
      ghost var s0 := View();
      var loaded;
      RunOne(Kernel, s0, Dispatch(c));
      ch, loaded := LookUp(c);
      trace := [Dispatch(c)];
      if loaded {
        RunAppend(Kernel, s0, trace, beforeDelete);
        OthersSpareDispatcher(View(), beforeDelete, c);
        Interfere(beforeDelete);
        trace := trace + beforeDelete;
        RunThen(Kernel, s0, trace, Dispatch(c));
        Delete(c);
        trace := trace + [Dispatch(c)];
      }
      RunAppend(Kernel, s0, trace, beforeSend);
      OthersSpareDispatcher(View(), beforeSend, c);
      Interfere(beforeSend);
      trace := trace + beforeSend;
      RunThen(Kernel, s0, trace, Dispatch(c));
      Send(c);
      trace := trace + [Dispatch(c)];
    }

    method Seek(c: nat) returns (ch: nat, loaded: bool)
      requires Inv(View()) && c < |conns| && conns[c].accepter.Seeking?
      modifies this
      ensures View() == Kernel(old(View()), Accept(c)) && Inv(View())
      ensures c < |conns| && conns[c].accepter == if loaded then Removing(ch) else Receiving(ch)
    {
      StepKeepsInv(View(), Accept(c));
      ch, loaded := LoadOrStore(conns[c].addr, 2 * c + 1);
      conns := conns[c := conns[c].(accepter := if loaded then Removing(ch) else Receiving(ch))];
    }

    method Remove(c: nat)
      requires Inv(View()) && c < |conns| && conns[c].accepter.Removing?
      modifies this
      ensures View() == Kernel(old(View()), Accept(c)) && Inv(View())
      ensures c < |conns| && conns[c].accepter == Receiving(old(conns[c]).accepter.ch)
    {
      StepKeepsInv(View(), Accept(c));
      backlog, conns := backlog - {conns[c].addr}, conns[c := conns[c].(accepter := Receiving(conns[c].accepter.ch))];
    }

    /** The receive, if the channel has something. */
    method Receive(c: nat) returns (proxy: nat, waiting: bool)
      requires Inv(View()) && c < |conns| && conns[c].accepter.Receiving?
      modifies this
      ensures View() == Kernel(old(View()), Accept(c)) && Inv(View()) && c < |conns|
      ensures if waiting then conns[c].accepter.Receiving? && !conns[c].dispatcher.Sent?
              else proxy == c && conns[c].accepter.Received? && conns[c].accepter.proxy == c
    {
      ChannelsOf(View(), c);
      StepKeepsInv(View(), Accept(c));
      var ch := conns[c].accepter.ch;
      proxy, waiting := c, channels[ch] == [];
      if !waiting {
        proxy := channels[ch][0];
        channels, conns := channels[ch := channels[ch][1..]], conns[c := conns[c].(accepter := Received(ch, proxy))];
      }
    }

    /** The accepter from its lookup to its receive: it gets its own connection's proxy, or is
        still waiting because the dispatcher has not sent it. */
    method Meet(c: nat, beforeDelete: seq<Move>, beforeReceive: seq<Move>)
      returns (proxy: nat, waiting: bool, ghost trace: seq<Move>)
      requires Inv(View()) && c < |conns| && conns[c].accepter.Seeking?
      requires NotAccepting(beforeDelete, c) && NotAccepting(beforeReceive, c)
      modifies this
      ensures View() == Run(Kernel, old(View()), trace) && Inv(View()) && c < |conns|
      ensures waiting ==> conns[c].accepter.Receiving? && !conns[c].dispatcher.Sent?
      ensures !waiting ==> proxy == c && conns[c].accepter.Received? && conns[c].accepter.proxy == c
    {
      ghost var s0 := View();
      RunOne(Kernel, s0, Accept(c));
      var ch, loaded := Seek(c);
      trace := [Accept(c)];
      if loaded {
        RunAppend(Kernel, s0, trace, beforeDelete);
        OthersSpareAccepter(View(), beforeDelete, c);
        Interfere(beforeDelete);
        trace := trace + beforeDelete;
        RunThen(Kernel, s0, trace, Accept(c));
        Remove(c);
        trace := trace + [Accept(c)];
      }
      RunAppend(Kernel, s0, trace, beforeReceive);
      OthersSpareAccepter(View(), beforeReceive, c);
      Interfere(beforeReceive);
      trace := trace + beforeReceive;
      RunThen(Kernel, s0, trace, Accept(c));
      proxy, waiting := Receive(c);
      trace := trace + [Accept(c)];
    }
  }
}
