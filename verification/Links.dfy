// Closing a link while events are dispatched: transport/transport.go.
//
// Events are numbered in the order in which SendEvent takes the dispatch mutex. The jobs are
// the goroutines of the one SendEvent that holds it.
module Links {
  import opened Options
  import opened Schedules

  // Link.dispatch: before inflight.Add, after it, inside HandleEvent, on the way out.
  datatype Job = Spawned | Counted | Handling | Leaving | Gone

  // SendEvent: holds the mutex; has taken its copy of the list and started a job for each link.
  datatype Sending = Resting | Locked | Running(jobs: map<nat, Job>)

  // Link.Close: before the compare-and-swap; as its winner; as a loser; returned.
  datatype Closer = Calling | Removing | Waiting | Signalling | Joining | Returned

  // first: the number of the first event whose dispatch can see the link in the list.
  // handled: the events HandleEvent was called with. winner: the Close call that closes it.
  datatype Link = Link(closing: bool, inflight: nat, closed: bool, first: nat, handled: seq<nat>, winner: Option<nat>)

  datatype Call = Call(link: nat, pc: Closer)

  datatype State = State(links: seq<Link>, sinks: seq<nat>, sent: nat, sending: Sending, calls: seq<Call>)

  datatype Move =
    | Connect
    | Lock                 // a SendEvent takes the mutex
    | List                 // ... copies the list and starts the jobs
    | Unlock               // ... has waited for all of them
    | Dispatch(link: nat)  // the next step of the link's job
    | CallClose(link: nat)
    | Close(call: nat)

  function Init(): State {
    State([], [], 0, Resting, [])
  }

  function SetLink(s: State, l: nat, link: Link): State
    requires l < |s.links|
  {
    s.(links := s.links[l := link])
  }

  function StepConnect(s: State): State {
    var first := if s.sending.Locked? && s.sent > 0 then s.sent - 1 else s.sent;
    s.(links := s.links + [Link(false, 0, false, first, [], None)], sinks := s.sinks + [|s.links|])
  }

  /** dispatch: count in, look at closing, handle or not, count out. */
  function StepDispatch(s: State, l: nat): State
    requires s.sending.Running? && l in s.sending.jobs && l < |s.links|
  {
    var jobs, link := s.sending.jobs, s.links[l];
    match jobs[l]
    case Spawned => SetLink(s, l, link.(inflight := link.inflight + 1)).(sending := Running(jobs[l := Counted]))
    case Counted =>
      if link.closing || s.sent == 0 then s.(sending := Running(jobs[l := Leaving]))
      else SetLink(s, l, link.(handled := link.handled + [s.sent - 1])).(sending := Running(jobs[l := Handling]))
    case Handling => s.(sending := Running(jobs[l := Leaving]))
    case Leaving =>
      if link.inflight == 0 then s
      else SetLink(s, l, link.(inflight := link.inflight - 1)).(sending := Running(jobs[l := Gone]))
    case Gone => s
  }

  /** Bus.remove: the first occurrence, if there is one. */
  function Without(sinks: seq<nat>, l: nat): seq<nat> {
    if sinks == [] then [] else if sinks[0] == l then sinks[1..] else [sinks[0]] + Without(sinks[1..], l)
  }

  function Goto(s: State, c: nat, pc: Closer): State
    requires c < |s.calls|
  {
    s.(calls := s.calls[c := s.calls[c].(pc := pc)])
  }

  function StepClose(s: State, c: nat): State
    requires c < |s.calls| && s.calls[c].link < |s.links|
  {
    var l := s.calls[c].link;
    var link := s.links[l];
    match s.calls[c].pc
    case Calling =>
      if link.closing then Goto(s, c, Joining)
      else SetLink(Goto(s, c, Removing), l, link.(closing := true, winner := Some(c)))
    case Removing => Goto(s, c, Waiting).(sinks := Without(s.sinks, l))
    case Waiting => if link.inflight == 0 then Goto(s, c, Signalling) else s
    case Signalling => SetLink(Goto(s, c, Returned), l, link.(closed := true))
    case Joining => if link.closed then Goto(s, c, Returned) else s
    case Returned => s
  }

  function Apply(s: State, m: Move): State {
    match m
    case Connect => StepConnect(s)
    case Lock => if s.sending.Resting? then s.(sent := s.sent + 1, sending := Locked) else s
    case List => if s.sending.Locked? then s.(sending := Running(map l | l in s.sinks :: Spawned)) else s
    case Unlock =>
      if s.sending.Running? && (forall l :: l in s.sending.jobs ==> s.sending.jobs[l].Gone?)
      then s.(sending := Resting) else s
    case Dispatch(l) => if s.sending.Running? && l in s.sending.jobs && l < |s.links| then StepDispatch(s, l) else s
    case CallClose(l) => if l < |s.links| then s.(calls := s.calls + [Call(l, Calling)]) else s
    case Close(c) => if c < |s.calls| && s.calls[c].link < |s.links| then StepClose(s, c) else s
  }

  // ---- the invariant ----

  predicate Inflight(s: State, l: nat) {
    && s.sending.Running? && l in s.sending.jobs
    && (s.sending.jobs[l].Counted? || s.sending.jobs[l].Handling? || s.sending.jobs[l].Leaving?)
  }

  predicate HandlerRuns(s: State, l: nat) {
    s.sending.Running? && l in s.sending.jobs && s.sending.jobs[l].Handling?
  }

  /** How many events a link still attached has been given by now. */
  function Due(s: State, l: nat): int
    requires l < |s.links|
  {
    s.sent - s.links[l].first
    - (if s.sending.Locked? then 1
       else if s.sending.Running? && l in s.sending.jobs && (s.sending.jobs[l].Spawned? || s.sending.jobs[l].Counted?) then 1
       else 0)
  }

  ghost predicate LinkOk(s: State, l: nat)
    requires l < |s.links|
  {
    var link := s.links[l];
    && link.inflight == (if Inflight(s, l) then 1 else 0)
    && (link.closing <==> link.winner.Some?)
    && (link.closed ==> link.closing && !HandlerRuns(s, l))
    && (link.winner.Some? ==>
          && link.winner.value < |s.calls| && s.calls[link.winner.value].link == l
          && (link.closed <==> s.calls[link.winner.value].pc.Returned?))
    && link.first + |link.handled| <= s.sent
    && (forall i :: 0 <= i < |link.handled| ==> link.handled[i] == link.first + i)
    && (!link.closing ==> l in s.sinks && |link.handled| == Due(s, l))
    && (!link.closing && s.sending.Running? && l !in s.sending.jobs ==> link.first == s.sent)
    && (s.sending.Running? && l in s.sending.jobs ==> link.first < s.sent)
  }

  ghost predicate CallOk(s: State, c: nat)
    requires c < |s.calls|
  {
    var l := s.calls[c].link;
    && l < |s.links|
    && (match s.calls[c].pc
        case Calling => true
        case Removing => s.links[l].winner == Some(c) && !s.links[l].closed
        case Waiting => s.links[l].winner == Some(c) && !s.links[l].closed
        case Signalling => s.links[l].winner == Some(c) && !s.links[l].closed && !HandlerRuns(s, l)
        case Joining => s.links[l].closing
        case Returned => s.links[l].closed)
  }

  ghost predicate ListOk(s: State) {
    && (forall l :: l in s.sinks ==> l < |s.links|)
    && (s.sending.Running? ==> forall l :: l in s.sending.jobs ==> l < |s.links|)
    && (!s.sending.Resting? ==> s.sent > 0)
    && (s.sending.Locked? ==> forall l :: l in s.sinks ==> s.links[l].first < s.sent)
  }

  ghost predicate Inv(s: State) {
    && ListOk(s)
    && (forall l :: 0 <= l < |s.links| ==> LinkOk(s, l))
    && (forall c :: 0 <= c < |s.calls| ==> CallOk(s, c))
  }

  lemma {:induction false} WithoutMembers(sinks: seq<nat>, l: nat)
    ensures forall x :: x in Without(sinks, l) ==> x in sinks
    ensures forall x :: x in sinks && x != l ==> x in Without(sinks, l)
  {
    if sinks != [] && sinks[0] != l {
      WithoutMembers(sinks[1..], l);
    }
  }

  // ---- every step keeps it ----

  lemma ConnectKeeps(s: State)
    requires Inv(s)
    ensures Inv(StepConnect(s))
  {
    var s' := StepConnect(s);
    forall l | 0 <= l < |s'.links| ensures LinkOk(s', l) {
      if l < |s.links| { assert LinkOk(s, l); }
    }
    forall c | 0 <= c < |s'.calls| ensures CallOk(s', c) {
      if c < |s.calls| { assert CallOk(s, c); }
    }
  }

  lemma SendKeeps(s: State, m: Move)
    requires Inv(s) && (m.Lock? || m.List? || m.Unlock? || m.CallClose?)
    ensures Inv(Apply(s, m))
  {
    var s' := Apply(s, m);
    forall l | l in s.sinks ensures s.links[l].first <= s.sent { assert LinkOk(s, l); }
    forall l | 0 <= l < |s'.links| ensures LinkOk(s', l) {
      if l < |s.links| { assert LinkOk(s, l); }
    }
    forall c | 0 <= c < |s'.calls| ensures CallOk(s', c) {
      if c < |s.calls| { assert CallOk(s, c); }
    }
  }

  lemma DispatchKeepsLink(s: State, l: nat, k: nat)
    requires ListOk(s) && s.sending.Running? && l in s.sending.jobs && l < |s.links| && LinkOk(s, l)
    requires k < |s.links| && LinkOk(s, k)
    ensures LinkOk(StepDispatch(s, l), k)
  {
    if k == l { DispatchKeepsOwn(s, l); } else { DispatchKeepsOther(s, l, k); }
  }

  lemma DispatchKeepsOwn(s: State, l: nat)
    requires s.sending.Running? && l in s.sending.jobs && l < |s.links| && LinkOk(s, l)
    ensures LinkOk(StepDispatch(s, l), l)
  {
    match s.sending.jobs[l]
    case Counted =>
      var s' := StepDispatch(s, l);
      if !s.links[l].closing {
        assert s'.links[l].handled == s.links[l].handled + [s.sent - 1];
      }
    case _ =>
  }

  lemma DispatchKeepsOther(s: State, l: nat, k: nat)
    requires s.sending.Running? && l in s.sending.jobs && l < |s.links|
    requires k < |s.links| && k != l && LinkOk(s, k)
    ensures LinkOk(StepDispatch(s, l), k)
  {
    var s' := StepDispatch(s, l);
    assert s'.links[k] == s.links[k] && s'.calls == s.calls && s'.sinks == s.sinks && s'.sent == s.sent;
    assert s'.sending.Running? && (k in s'.sending.jobs <==> k in s.sending.jobs);
    assert k in s.sending.jobs ==> s'.sending.jobs[k] == s.sending.jobs[k];
    hide StepDispatch;
  }

  lemma DispatchKeeps(s: State, l: nat)
    requires Inv(s) && s.sending.Running? && l in s.sending.jobs && l < |s.links| && LinkOk(s, l)
    ensures Inv(StepDispatch(s, l))
  {
    var s' := StepDispatch(s, l);
    forall k | 0 <= k < |s'.links| ensures LinkOk(s', k) {
      assert LinkOk(s, k);
      DispatchKeepsLink(s, l, k);
    }
    forall c | 0 <= c < |s'.calls| ensures CallOk(s', c) {
      assert CallOk(s, c);
    }
  }

  lemma CloseKeepsLink(s: State, c: nat, l: nat)
    requires c < |s.calls| && CallOk(s, c) && l < |s.links| && LinkOk(s, l)
    ensures l < |StepClose(s, c).links| && LinkOk(StepClose(s, c), l)
  {
    if l == s.calls[c].link { CloseKeepsOwn(s, c); } else { CloseKeepsOther(s, c, l); }
  }

  lemma CloseKeepsOwn(s: State, c: nat)
    requires c < |s.calls| && CallOk(s, c) && LinkOk(s, s.calls[c].link)
    ensures var l := s.calls[c].link;
            l < |StepClose(s, c).links| && LinkOk(StepClose(s, c), l)
  {
    hide Without;
  }

  lemma CloseKeepsOther(s: State, c: nat, l: nat)
    requires c < |s.calls| && CallOk(s, c) && l < |s.links| && l != s.calls[c].link && LinkOk(s, l)
    ensures l < |StepClose(s, c).links| && LinkOk(StepClose(s, c), l)
  {
    WithoutMembers(s.sinks, s.calls[c].link);
    hide Without;
    var s' := StepClose(s, c);
    assert |s'.links| == |s.links| && s'.links[l] == s.links[l] && s'.sent == s.sent && s'.sending == s.sending;
    assert l in s.sinks ==> l in s'.sinks;
    assert |s'.calls| == |s.calls| && forall k :: 0 <= k < |s.calls| && k != c ==> s'.calls[k] == s.calls[k];
    hide StepClose, CallOk;
  }

  lemma CloseKeepsCall(s: State, c: nat, k: nat)
    requires c < |s.calls| && CallOk(s, c) && LinkOk(s, s.calls[c].link) && k < |s.calls| && CallOk(s, k)
    ensures k < |StepClose(s, c).calls| && CallOk(StepClose(s, c), k)
  {
    hide Without, Due;
  }

  lemma CloseKeeps(s: State, c: nat)
    requires Inv(s) && c < |s.calls| && CallOk(s, c)
    ensures Inv(StepClose(s, c))
  {
    var s' := StepClose(s, c);
    WithoutMembers(s.sinks, s.calls[c].link);
    assert ListOk(s') && |s'.links| == |s.links| && |s'.calls| == |s.calls|;
    assert LinkOk(s, s.calls[c].link);
    hide StepClose, LinkOk, CallOk, ListOk;
    forall l | 0 <= l < |s'.links| ensures LinkOk(s', l) {
      assert LinkOk(s, l);
      CloseKeepsLink(s, c, l);
    }
    forall k | 0 <= k < |s'.calls| ensures CallOk(s', k) {
      assert CallOk(s, k);
      CloseKeepsCall(s, c, k);
    }
  }

  lemma StepKeepsInv(s: State, m: Move)
    requires Inv(s)
    ensures Inv(Apply(s, m))
  {
    match m
    case Connect => ConnectKeeps(s);
    case Dispatch(l) =>
      if s.sending.Running? && l in s.sending.jobs { assert LinkOk(s, l); DispatchKeeps(s, l); }
    case Close(c) => if c < |s.calls| { assert CallOk(s, c); CloseKeeps(s, c); }
    case _ => SendKeeps(s, m);
  }

  // ---- over every run ----

  ghost predicate Reachable(s: State) {
    exists ms: seq<Move> :: s == Run(Apply, Init(), ms)
  }

  lemma ReachableInv(s: State)
    requires Reachable(s)
    ensures Inv(s)
  {
    var ms: seq<Move> :| s == Run(Apply, Init(), ms);
    forall s, m | Inv(s) ensures Inv(Apply(s, m)) {
      StepKeepsInv(s, m);
    }
    RunKeeps(Apply, Inv, Init(), ms);
  }

  lemma ClosedStaysQuiet(s: State, m: Move, l: nat)
    requires Inv(s) && l < |s.links| && s.links[l].closed
    ensures var s' := Apply(s, m);
            && l < |s'.links| && s'.links[l].closed && !HandlerRuns(s', l)
            && s'.links[l].handled == s.links[l].handled
  {
    StepKeepsInv(s, m);
    assert LinkOk(s, l);
    if m.Close? && m.call < |s.calls| { assert CallOk(s, m.call); }
    assert l < |Apply(s, m).links| ==> LinkOk(Apply(s, m), l);
  }

  lemma {:induction false} ClosedForever(s: State, ms: seq<Move>, l: nat)
    requires Inv(s) && l < |s.links| && s.links[l].closed
    ensures var s' := Run(Apply, s, ms);
            && l < |s'.links| && !HandlerRuns(s', l) && s'.links[l].handled == s.links[l].handled
    decreases |ms|
  {
    assert LinkOk(s, l);
    if ms != [] {
      StepKeepsInv(s, ms[0]);
      ClosedStaysQuiet(s, ms[0], l);
      ClosedForever(Apply(s, ms[0]), ms[1..], l);
    }
  }

  /** Once any Close call on a link has returned, no handler of the link is running, and
      whatever happens next none ever starts. */
  lemma CloseIsFinal(s: State, c: nat, future: seq<Move>)
    requires Reachable(s) && c < |s.calls| && s.calls[c].pc.Returned?
    ensures s.calls[c].link < |s.links| && !HandlerRuns(s, s.calls[c].link)
    ensures var s' := Run(Apply, s, future);
            && s.calls[c].link < |s'.links| && !HandlerRuns(s', s.calls[c].link)
            && s'.links[s.calls[c].link].handled == s.links[s.calls[c].link].handled
  {
    ReachableInv(s);
    assert CallOk(s, c);
    assert LinkOk(s, s.calls[c].link);
    ClosedForever(s, future, s.calls[c].link);
  }

  /** The handled events are consecutive, each once, in dispatch order. */
  lemma HandlesASegment(s: State, l: nat)
    requires Reachable(s) && l < |s.links|
    ensures forall i :: 0 <= i < |s.links[l].handled| ==> s.links[l].handled[i] == s.links[l].first + i
    ensures s.links[l].first + |s.links[l].handled| <= s.sent
  {
    ReachableInv(s);
    assert LinkOk(s, l);
  }

  /** While the link is open the segment reaches up to the last event fully dispatched. */
  lemma OpenLinkMissesNothing(s: State, l: nat)
    requires Reachable(s) && l < |s.links| && !s.links[l].closing && s.sending.Resting?
    ensures s.links[l].first + |s.links[l].handled| == s.sent
  {
    ReachableInv(s);
    assert LinkOk(s, l);
  }

  /** The winner alone closes the channel, so it is closed once. */
  lemma OneCloserSignals(s: State, c: nat, c': nat)
    requires Reachable(s) && c < |s.calls| && c' < |s.calls| && s.calls[c].link == s.calls[c'].link
    requires s.calls[c].pc.Signalling? && (s.calls[c'].pc.Removing? || s.calls[c'].pc.Waiting? || s.calls[c'].pc.Signalling?)
    ensures c == c' && s.calls[c].link < |s.links| && !s.links[s.calls[c].link].closed
  {
    ReachableInv(s);
    assert CallOk(s, c) && CallOk(s, c');
  }

  /** A Close that waits for the handlers can go on as soon as the running dispatch is over. */
  lemma CloseProceeds(s: State, c: nat)
    requires Reachable(s) && c < |s.calls| && s.calls[c].pc.Waiting? && !s.sending.Running?
    ensures Apply(s, Close(c)).calls[c].pc.Signalling?
  {
    ReachableInv(s);
    assert CallOk(s, c);
    assert LinkOk(s, s.calls[c].link);
  }
}
