// transport/transport.go as objects.
module Buses {
  import opened Options
  import opened Schedules
  import opened Links

  /** The list of links a bus delivers to, under its mutex. */
  class Sinks {
    var sinks: seq<nat>

    constructor ()
      ensures sinks == []
    {
      sinks := [];
    }

    /** A copy: later changes to the list do not show in it. */
    method List() returns (copy: seq<nat>)
      ensures copy == sinks
    {
      copy := [] + sinks;
    }

    method Add(l: nat)
      modifies this
      ensures sinks == old(sinks) + [l]
    {
      sinks := sinks + [l];
    }

    method Remove(l: nat)
      modifies this
      ensures sinks == Without(old(sinks), l)
    {
      var i := 0;
      while i < |sinks|
        invariant 0 <= i <= |sinks| && sinks == old(sinks) && l !in sinks[..i]
      {
        if sinks[i] == l {
          WithoutAt(sinks, l, i);
          sinks := sinks[..i] + sinks[i + 1..];
          return;
        }
        i := i + 1;
      }
      WithoutNone(sinks, l);
    }
  }

  lemma {:induction false} WithoutAt(sinks: seq<nat>, l: nat, i: nat)
    requires i < |sinks| && sinks[i] == l && l !in sinks[..i]
    ensures Without(sinks, l) == sinks[..i] + sinks[i + 1..]
  {
    if i > 0 {
      assert sinks[0] == sinks[..i][0];
      assert sinks[1..][..i - 1] == sinks[..i][1..];
      WithoutAt(sinks[1..], l, i - 1);
      assert sinks[1..][i..] == sinks[i + 1..];
    }
  }

  lemma {:induction false} WithoutNone(sinks: seq<nat>, l: nat)
    requires l !in sinks
    ensures Without(sinks, l) == sinks
  {
    if sinks != [] {
      WithoutNone(sinks[1..], l);
    }
  }

  /** A bus, its links, and the calls being made on them. */
  class Bus {
    const list: Sinks
    var links: seq<Link>
    var sent: nat
    var sending: Sending
    var calls: seq<Call>

    function View(): State
      reads this, list
    {
      State(links, list.sinks, sent, sending, calls)
    }

    constructor ()
      ensures View() == Init() && fresh(list)
    {
      links, sent, sending, calls := [], 0, Resting, [];
      list := new Sinks();
    }

    method Interfere(ms: seq<Move>)
      modifies this, list
      ensures View() == Run(Apply, old(View()), ms)
    {
      hide Apply;
      for k := 0 to |ms|
        invariant View() == Run(Apply, old(View()), ms[..k])
      {
        RunNext(Apply, old(View()), ms, k);
        var s := Apply(View(), ms[k]);
        links, list.sinks, sent, sending, calls := s.links, s.sinks, s.sent, s.sending, s.calls;
      }
      assert ms[..|ms|] == ms;
    }

    method Meanwhile(ghost s0: State, ghost trace: seq<Move>, ms: seq<Move>, c: nat)
      requires View() == Run(Apply, s0, trace) && Inv(View()) && c < |calls| && Foreign(ms, c)
      modifies this, list
      ensures View() == Run(Apply, s0, trace + ms) && Inv(View())
      ensures c < |calls| && calls[c] == old(calls)[c]
    {
      RunAppend(Apply, s0, trace, ms);
      ForeignKeeps(View(), ms, c);
      Interfere(ms);
    }

    /** A new call of Close on link l. */
    method StartCall(l: nat) returns (c: nat)
      requires Inv(View()) && l < |links|
      modifies this
      ensures View() == Apply(old(View()), CallClose(l)) && Inv(View())
      ensures c == |old(calls)| < |calls| && calls[c] == Call(l, Calling)
    {
      StepKeepsInv(View(), CallClose(l));
      c := |calls|;
      calls := calls + [Call(l, Calling)];
    }

    /** The compare-and-swap of Close. */
    method StartClosing(c: nat) returns (won: bool)
      requires Inv(View()) && c < |calls| && calls[c].pc.Calling?
      modifies this
      ensures View() == Apply(old(View()), Close(c)) && Inv(View())
      ensures c < |calls| && calls[c] == Call(old(calls)[c].link, if won then Removing else Joining)
    {
      assert CallOk(View(), c);
      StepKeepsInv(View(), Close(c));
      var l := calls[c].link;
      won := !links[l].closing;
      if won {
        links := links[l := links[l].(closing := true, winner := Some(c))];
        calls := calls[c := calls[c].(pc := Removing)];
      } else {
        calls := calls[c := calls[c].(pc := Joining)];
      }
    }

    /** onClose: take the link off the list. */
    method TakeOut(c: nat)
      requires Inv(View()) && c < |calls| && calls[c].pc.Removing?
      modifies this, list
      ensures View() == Apply(old(View()), Close(c)) && Inv(View())
      ensures c < |calls| && calls[c] == Call(old(calls)[c].link, Waiting)
    {
      assert CallOk(View(), c);
      StepKeepsInv(View(), Close(c));
      list.Remove(calls[c].link);
      calls := calls[c := calls[c].(pc := Waiting)];
    }

    /** inflight.Wait(): whether it has returned. */
    method Await(c: nat) returns (quiet: bool)
      requires Inv(View()) && c < |calls| && calls[c].pc.Waiting?
      modifies this
      ensures View() == Apply(old(View()), Close(c)) && Inv(View())
      ensures c < |calls| && calls[c] == Call(old(calls)[c].link, if quiet then Signalling else Waiting)
    {
      assert CallOk(View(), c);
      StepKeepsInv(View(), Close(c));
      quiet := links[calls[c].link].inflight == 0;
      if quiet {
        calls := calls[c := calls[c].(pc := Signalling)];
      }
    }

    /** close(l.closed) */
    method Signal(c: nat)
      requires Inv(View()) && c < |calls| && calls[c].pc.Signalling?
      modifies this
      ensures View() == Apply(old(View()), Close(c)) && Inv(View())
      ensures c < |calls| && calls[c] == Call(old(calls)[c].link, Returned)
    {
      assert CallOk(View(), c);
      StepKeepsInv(View(), Close(c));
      var l := calls[c].link;
      links := links[l := links[l].(closed := true)];
      calls := calls[c := calls[c].(pc := Returned)];
    }

    /** <-l.closed: whether it was closed by now. */
    method Join(c: nat) returns (done: bool)
      requires Inv(View()) && c < |calls| && calls[c].pc.Joining?
      modifies this
      ensures View() == Apply(old(View()), Close(c)) && Inv(View())
      ensures c < |calls| && calls[c] == Call(old(calls)[c].link, if done then Returned else Joining)
    {
      assert CallOk(View(), c);
      StepKeepsInv(View(), Close(c));
      done := links[calls[c].link].closed;
      if done {
        calls := calls[c := calls[c].(pc := Returned)];
      }
    }

    /** Close on link l, with what the others do before each of its steps. If it has returned,
        the link is closed; if not, it is still waiting for the handler. */
    method CloseLink(l: nat, b1: seq<Move>, b2: seq<Move>, b3: seq<Move>, b4: seq<Move>)
      returns (c: nat, done: bool, ghost trace: seq<Move>)
      requires Inv(View()) && l < |links|
      requires Foreign(b1, |calls|) && Foreign(b2, |calls|) && Foreign(b3, |calls|) && Foreign(b4, |calls|)
      modifies this, list
      ensures View() == Run(Apply, old(View()), trace) && Inv(View())
      ensures c == |old(calls)| < |calls| && calls[c].link == l < |links|
      ensures if done then calls[c].pc.Returned? && links[l].closed && !HandlerRuns(View(), l)
              else calls[c].pc.Waiting? || calls[c].pc.Joining?
    {
      ghost var s0 := View();
      hide Apply, Inv, HandlerRuns;
      RunOne(Apply, s0, CallClose(l));
      c := StartCall(l);
      trace := [CallClose(l)];
      Meanwhile(s0, trace, b1, c);
      trace := trace + b1;
      RunThen(Apply, s0, trace, Close(c));
      var won := StartClosing(c);
      trace := trace + [Close(c)];
      Meanwhile(s0, trace, b2, c);
      trace := trace + b2;
      RunThen(Apply, s0, trace, Close(c));
      if won {
        TakeOut(c);
        trace := trace + [Close(c)];
        Meanwhile(s0, trace, b3, c);
        trace := trace + b3;
        RunThen(Apply, s0, trace, Close(c));
        done := Await(c);
        trace := trace + [Close(c)];
        if done {
          Meanwhile(s0, trace, b4, c);
          trace := trace + b4;
          RunThen(Apply, s0, trace, Close(c));
          Signal(c);
          trace := trace + [Close(c)];
        }
      } else {
        done := Join(c);
        trace := trace + [Close(c)];
      }
      CallTells(View(), c);
    }
  }

  lemma CallTells(s: State, c: nat)
    requires Inv(s) && c < |s.calls|
    ensures s.calls[c].link < |s.links|
    ensures s.calls[c].pc.Returned? ==> s.links[s.calls[c].link].closed && !HandlerRuns(s, s.calls[c].link)
  {
    assert CallOk(s, c);
    assert LinkOk(s, s.calls[c].link);
  }

  predicate Foreign(ms: seq<Move>, c: nat) {
    forall k :: 0 <= k < |ms| ==> ms[k] != Close(c)
  }

  lemma {:induction false} ForeignKeeps(s: State, ms: seq<Move>, c: nat)
    requires Inv(s) && c < |s.calls| && Foreign(ms, c)
    ensures var s' := Run(Apply, s, ms); Inv(s') && c < |s'.calls| && s'.calls[c] == s.calls[c]
    decreases |ms|
  {
    if ms != [] {
      StepKeepsInv(s, ms[0]);
      ForeignKeeps(Apply(s, ms[0]), ms[1..], c);
    }
  }
}
