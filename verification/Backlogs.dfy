// The meeting of dispatcher and accepter in a listening socket's backlog map:
// cmd/run/socket/socket.go, Listen's dispatch loop and Accept.
//
// Each connection of the dispatch loop to the ephemeral address is dialled from some local
// address; accept(2) hands the same connection to an accepter, which sees that address as its
// peer. The two look the address up in the map, in either order.
module Backlogs {
  import opened Schedules

  type Address = nat

  // A party to a connection, by the channel it goes on with: about to look up; loaded the
  // other's channel, about to delete the entry; about to send or receive; through. A received
  // proxy is named by the connection it was dialled for.
  datatype Dispatcher = Looking | Deleting(ch: nat) | Sending(ch: nat) | Sent(ch: nat)
  datatype Accepter = Seeking | Removing(ch: nat) | Receiving(ch: nat) | Received(ch: nat, proxy: nat) | Mismatch(proxy: nat)

  datatype Connection = Connection(addr: Address, dispatcher: Dispatcher, accepter: Accepter)

  // Each channel has room for one proxy. Connection c's dispatcher makes channel 2c, its
  // accepter channel 2c + 1.
  datatype State = State(backlog: map<Address, nat>, channels: seq<seq<nat>>, conns: seq<Connection>)

  datatype Move = Dial(addr: Address) | Dispatch(conn: nat) | Accept(conn: nat)

  function Init(): State {
    State(map[], [], [])
  }

  function StepDispatcher(s: State, c: nat): State
    requires c < |s.conns|
  {
    var k := s.conns[c];
    match k.dispatcher
    case Looking =>
      if k.addr in s.backlog then s.(conns := s.conns[c := k.(dispatcher := Deleting(s.backlog[k.addr]))])
      else s.(conns := s.conns[c := k.(dispatcher := Sending(2 * c))], backlog := s.backlog[k.addr := 2 * c])
    case Deleting(ch) =>
      s.(conns := s.conns[c := k.(dispatcher := Sending(ch))], backlog := s.backlog - {k.addr})
    case Sending(ch) =>
      if ch < |s.channels| && s.channels[ch] == []
      then s.(conns := s.conns[c := k.(dispatcher := Sent(ch))], channels := s.channels[ch := [c]]) else s
    case Sent(_) => s
  }

  function StepAccepter(s: State, c: nat): State
    requires c < |s.conns|
  {
    var k := s.conns[c];
    match k.accepter
    case Seeking =>
      if k.addr in s.backlog then s.(conns := s.conns[c := k.(accepter := Removing(s.backlog[k.addr]))])
      else s.(conns := s.conns[c := k.(accepter := Receiving(2 * c + 1))], backlog := s.backlog[k.addr := 2 * c + 1])
    case Removing(ch) =>
      s.(conns := s.conns[c := k.(accepter := Receiving(ch))], backlog := s.backlog - {k.addr})
    case Receiving(ch) =>
      if ch < |s.channels| && s.channels[ch] != [] then
        var p := s.channels[ch][0];
        var got := if p < |s.conns| && s.conns[p].addr == k.addr then Received(ch, p) else Mismatch(p);
        s.(conns := s.conns[c := k.(accepter := got)], channels := s.channels[ch := s.channels[ch][1..]])
      else s
    case Received(_, _) => s
    case Mismatch(_) => s
  }

  function Apply(s: State, m: Move): State {
    match m
    case Dial(addr) =>
      s.(conns := s.conns + [Connection(addr, Looking, Seeking)], channels := s.channels + [[], []])
    case Dispatch(c) => if c < |s.conns| then StepDispatcher(s, c) else s
    case Accept(c) => if c < |s.conns| then StepAccepter(s, c) else s
  }

  /** No connection from this address is still waiting for its accepter. */
  predicate Free(s: State, addr: Address) {
    forall c :: 0 <= c < |s.conns| && s.conns[c].addr == addr ==> s.conns[c].accepter.Received?
  }

  /** The kernel gives a new connection an address that no open one has. */
  function Kernel(s: State, m: Move): State {
    if m.Dial? && !Free(s, m.addr) then s else Apply(s, m)
  }

  // ---- the invariant ----

  predicate On(d: Dispatcher, ch: nat) { d == Sending(ch) || d == Sent(ch) }

  /** How far the two can be from each other: whoever looks second takes the first's channel. */
  predicate Paired(k: Connection, mine: nat, yours: nat) {
    match k.accepter
    case Seeking => k.dispatcher.Looking? || On(k.dispatcher, mine)
    case Removing(ch) => ch == mine && On(k.dispatcher, mine)
    case Receiving(ch) =>
      || (ch == mine && On(k.dispatcher, mine))
      || (ch == yours && (k.dispatcher.Looking? || k.dispatcher == Deleting(yours) || On(k.dispatcher, yours)))
    case Received(ch, _) => (ch == mine || ch == yours) && k.dispatcher == Sent(ch)
    case Mismatch(_) => false
  }

  /** One has looked the address up and the other has not yet taken the entry out. */
  predicate Listed(k: Connection) {
    || k.dispatcher.Deleting? || k.accepter.Removing?
    || (k.dispatcher.Looking? && k.accepter.Receiving?)
    || (k.accepter.Seeking? && !k.dispatcher.Looking?)
  }

  /** The channel the pair goes on with. */
  function Meeting(k: Connection, mine: nat, yours: nat): nat {
    if On(k.dispatcher, mine) then mine else yours
  }

  ghost predicate ConnOk(s: State, c: nat)
    requires c < |s.conns|
  {
    var k := s.conns[c];
    && 2 * c + 1 < |s.channels|
    && Paired(k, 2 * c, 2 * c + 1)
    && (k.accepter.Received? ==> k.accepter.proxy == c)
    && s.channels[2 * c] == (if k.dispatcher == Sent(2 * c) && !k.accepter.Received? then [c] else [])
    && s.channels[2 * c + 1] == (if k.dispatcher == Sent(2 * c + 1) && !k.accepter.Received? then [c] else [])
    && (!k.accepter.Received? ==> (k.addr in s.backlog <==> Listed(k)))
    && (!k.accepter.Received? && Listed(k) ==> s.backlog[k.addr] == Meeting(k, 2 * c, 2 * c + 1))
  }

  /** Two connections still open are from two addresses. */
  ghost predicate Apart(s: State, b: nat, c: nat)
    requires b < |s.conns| && c < |s.conns|
  {
    b != c && s.conns[b].addr == s.conns[c].addr ==> s.conns[b].accepter.Received? || s.conns[c].accepter.Received?
  }

  /** An entry is that of an open connection from its address. */
  ghost predicate EntryOk(s: State, addr: Address)
    requires addr in s.backlog
  {
    var c := s.backlog[addr] / 2;
    c < |s.conns| && s.conns[c].addr == addr && !s.conns[c].accepter.Received?
  }

  ghost predicate Inv(s: State) {
    && |s.channels| == 2 * |s.conns|
    && (forall c :: 0 <= c < |s.conns| ==> ConnOk(s, c))
    && (forall b, c :: 0 <= b < |s.conns| && 0 <= c < |s.conns| ==> Apart(s, b, c))
    && (forall addr :: addr in s.backlog ==> EntryOk(s, addr))
  }

  lemma HasOwner(s: State, addr: Address)
    requires Inv(s) && addr in s.backlog
    ensures EntryOk(s, addr)
  {
  }

  lemma DialKeeps(s: State, addr: Address)
    requires Inv(s) && Free(s, addr)
    ensures Inv(Apply(s, Dial(addr)))
  {
    var s' := Apply(s, Dial(addr));
    var n := |s.conns|;
    if addr in s.backlog {
      HasOwner(s, addr);
    }
    forall c | 0 <= c < n + 1 ensures ConnOk(s', c) {
      if c < n {
        assert ConnOk(s, c);
        assert s'.channels[2 * c] == s.channels[2 * c] && s'.channels[2 * c + 1] == s.channels[2 * c + 1];
      }
    }
    forall b, c | 0 <= b < n + 1 && 0 <= c < n + 1 ensures Apart(s', b, c) {
      if b < n && c < n { assert Apart(s, b, c); }
    }
    forall a | a in s'.backlog ensures EntryOk(s', a) {
      assert EntryOk(s, a);
    }
  }

  /** What a step of connection c has to leave alone and set right for the invariant to hold. */
  lemma StepOfOne(s: State, s': State, c: nat)
    requires Inv(s) && c < |s.conns| && !s.conns[c].accepter.Received?
    requires |s'.conns| == |s.conns| && |s'.channels| == |s.channels| && s'.conns[c].addr == s.conns[c].addr
    requires forall b :: 0 <= b < |s.conns| && b != c ==> s'.conns[b] == s.conns[b]
    requires forall i :: 0 <= i < |s.channels| && i / 2 != c ==> s'.channels[i] == s.channels[i]
    requires forall a :: a != s.conns[c].addr ==> (a in s'.backlog <==> a in s.backlog)
    requires forall a :: a != s.conns[c].addr && a in s.backlog ==> s'.backlog[a] == s.backlog[a]
    requires ConnOk(s', c)
    requires s'.conns[c].accepter.Received? ==> s.conns[c].addr !in s'.backlog
    ensures Inv(s')
  {
    forall b | 0 <= b < |s'.conns| ensures ConnOk(s', b) {
      if b != c {
        assert ConnOk(s, b) && Apart(s, b, c);
        assert s'.channels[2 * b] == s.channels[2 * b] && s'.channels[2 * b + 1] == s.channels[2 * b + 1];
      }
    }
    forall b, d | 0 <= b < |s'.conns| && 0 <= d < |s'.conns| ensures Apart(s', b, d) {
      assert Apart(s, b, d);
    }
    forall a | a in s'.backlog ensures EntryOk(s', a) {
      if a == s.conns[c].addr {
        assert s'.backlog[a] / 2 == c;
      } else {
        assert EntryOk(s, a) && s'.backlog[a] == s.backlog[a];
      }
    }
  }

  lemma DispatchKeeps(s: State, c: nat)
    requires Inv(s) && c < |s.conns|
    ensures Inv(StepDispatcher(s, c))
  {
    assert ConnOk(s, c);
    if !s.conns[c].accepter.Received? {
      DispatchKeepsOwn(s, c);
      hide ConnOk, Apart, EntryOk;
      StepOfOne(s, StepDispatcher(s, c), c);
    }
  }

  lemma DispatchKeepsOwn(s: State, c: nat)
    requires |s.channels| == 2 * |s.conns| && c < |s.conns| && ConnOk(s, c) && !s.conns[c].accepter.Received?
    ensures var s' := StepDispatcher(s, c);
            && |s'.conns| == |s.conns| && |s'.channels| == |s.channels| && ConnOk(s', c)
            && s'.conns[c].addr == s.conns[c].addr && !s'.conns[c].accepter.Received?
            && (forall i :: 0 <= i < |s.channels| && i / 2 != c ==> s'.channels[i] == s.channels[i])
  {
  }

  lemma AcceptKeeps(s: State, c: nat)
    requires Inv(s) && c < |s.conns|
    ensures Inv(StepAccepter(s, c))
  {
    assert ConnOk(s, c);
    if !s.conns[c].accepter.Received? {
      StepOfOne(s, StepAccepter(s, c), c);
    }
  }

  lemma StepKeepsInv(s: State, m: Move)
    requires Inv(s)
    ensures Inv(Kernel(s, m))
  {
    match m
    case Dial(addr) => if Free(s, addr) { DialKeeps(s, addr); }
    case Dispatch(c) => if c < |s.conns| { DispatchKeeps(s, c); }
    case Accept(c) => if c < |s.conns| { AcceptKeeps(s, c); }
  }

  // ---- over every run ----

  ghost predicate Reachable(s: State) {
    exists ms: seq<Move> :: s == Run(Kernel, Init(), ms)
  }

  lemma ReachableInv(s: State)
    requires Reachable(s)
    ensures Inv(s)
  {
    var ms: seq<Move> :| s == Run(Kernel, Init(), ms);
    forall s, m | Inv(s) ensures Inv(Kernel(s, m)) {
      StepKeepsInv(s, m);
    }
    RunKeeps(Kernel, Inv, Init(), ms);
  }

  /** An accepter receives the very proxy that was dialled for its connection: the panic on a
      mismatched address cannot happen. */
  lemma ReceivesItsOwnProxy(s: State, c: nat)
    requires Reachable(s) && c < |s.conns|
    ensures !s.conns[c].accepter.Mismatch?
    ensures s.conns[c].accepter.Received? ==>
              s.conns[c].accepter.proxy == c && s.conns[c].dispatcher == Sent(s.conns[c].accepter.ch)
  {
    ReachableInv(s);
    assert ConnOk(s, c);
  }

  /** Past the lookup and its deletion. */
  predicate Passed(k: Connection) {
    (k.dispatcher.Sending? || k.dispatcher.Sent?) && (k.accepter.Receiving? || k.accepter.Received?)
  }

  /** Once both are past their lookups they are on one channel, the map has no entry left by
      them, and neither waits for ever: the dispatcher can send, or has sent and then the
      accepter can receive, or has received. */
  lemma PairsMeet(s: State, c: nat)
    requires Reachable(s) && c < |s.conns| && Passed(s.conns[c])
    ensures s.conns[c].dispatcher.ch == s.conns[c].accepter.ch
    ensures s.conns[c].accepter.Receiving? ==> s.conns[c].addr !in s.backlog
    ensures s.conns[c].dispatcher.Sending? ==> Apply(s, Dispatch(c)).conns[c].dispatcher.Sent?
    ensures s.conns[c].dispatcher.Sent? && s.conns[c].accepter.Receiving? ==>
              Apply(s, Accept(c)).conns[c].accepter == Received(s.conns[c].accepter.ch, c)
  {
    ReachableInv(s);
    assert ConnOk(s, c);
  }

  /** A dispatcher never blocks, whether or not its accepter ever comes. */
  lemma DispatcherNeverBlocks(s: State, c: nat)
    requires Reachable(s) && c < |s.conns| && !s.conns[c].dispatcher.Sent?
    ensures Apply(s, Dispatch(c)).conns[c].dispatcher != s.conns[c].dispatcher
  {
    ReachableInv(s);
    assert ConnOk(s, c);
  }

  /** An address has an entry exactly while one of an open connection's two has looked it up and
      the other has not taken the entry out. */
  lemma EntryMeansOneIsMissing(s: State, addr: Address)
    requires Reachable(s)
    ensures addr in s.backlog <==>
              exists c :: 0 <= c < |s.conns| && s.conns[c].addr == addr && !s.conns[c].accepter.Received? && Listed(s.conns[c])
  {
    ReachableInv(s);
    if addr in s.backlog {
      var c := s.backlog[addr] / 2;
      assert EntryOk(s, addr) && ConnOk(s, c);
      assert 0 <= c < |s.conns| && Listed(s.conns[c]);
    }
    if c :| 0 <= c < |s.conns| && s.conns[c].addr == addr && !s.conns[c].accepter.Received? && Listed(s.conns[c]) {
      assert ConnOk(s, c);
    }
  }

  /** Without that rule for addresses the protocol breaks: a second dispatcher from an address
      whose accepter has not come takes the first one's channel and blocks on it, and the entry
      the first accepter should find is gone. */
  lemma SharedAddressBlocks(addr: Address)
    ensures var s := Run(Apply, Init(), [Dial(addr), Dispatch(0), Dispatch(0), Dial(addr), Dispatch(1), Dispatch(1)]);
            && |s.conns| == 2
            && s.conns[1].dispatcher.Sending? && Apply(s, Dispatch(1)) == s
            && s.conns[0].accepter.Seeking? && addr !in s.backlog
  {
    var ms := [Dial(addr), Dispatch(0), Dispatch(0), Dial(addr), Dispatch(1), Dispatch(1)];
    var s2 := Apply(Apply(Init(), ms[0]), ms[1]);
    var s3 := Apply(s2, ms[2]);
    var s6 := Apply(Apply(Apply(s3, ms[3]), ms[4]), ms[5]);
    assert s3.channels == [[0], []];
    assert s6.conns[1].dispatcher == Sending(0) && s6.channels[0] == [0];
    assert ms == ms[..2] + ms[2..] && ms[..2] == [ms[0], ms[1]] && ms[2..] == [ms[2], ms[3], ms[4], ms[5]];
    RunAppend(Apply, Init(), ms[..2], ms[2..]);
    RunTwo(Apply, Init(), ms[0], ms[1]);
    RunFour(Apply, s2, ms[2], ms[3], ms[4], ms[5]);
  }
}
