// The byte budget that the two readers of a websocket share: readFull in
// cmd/run/socket/proxy.go, at the granularity of its atomic operations, for any number of
// readers.
module Budgets {
  import opened Tally
  import opened Schedules
  import opened Bytes

  // A reader's place in readFull: about to load the budget; loaded it; has reserved want bytes
  // and is reading; the read came up short and back bytes are to be given back.
  datatype Pc = Idle | Loading(want: nat) | Loaded(want: nat, seen: nat) | Reading(want: nat) | Refunding(back: nat)

  // stream is all that its peer will ever send; taken counts what it has read of it.
  datatype Reader = Reader(stream: seq<Byte>, taken: nat, pc: Pc)

  datatype State = State(limit: nat, n: nat, readers: seq<Reader>)

  datatype Move = Call(reader: nat, want: nat) | Go(reader: nat)

  function Init(limit: nat, streams: seq<seq<Byte>>): State {
    State(limit, limit, seq(|streams|, i requires 0 <= i < |streams| => Reader(streams[i], 0, Idle)))
  }

  /** How much a read of want bytes gets before the stream ends. */
  function Got(k: Reader, want: nat): nat {
    if k.taken + want <= |k.stream| then want else if k.taken <= |k.stream| then |k.stream| - k.taken else 0
  }

  function Put(s: State, r: nat, reader: Reader): State
    requires r < |s.readers|
  {
    s.(readers := s.readers[r := reader])
  }

  function Step(s: State, r: nat): State
    requires r < |s.readers|
  {
    var k := s.readers[r];
    match k.pc
    case Idle => s
    case Loading(want) => Put(s, r, k.(pc := if s.n < want then Idle else Loaded(want, s.n)))
    case Loaded(want, seen) =>
      if s.n == seen then Put(s, r, k.(pc := Reading(want))).(n := (seen - want) % TWO_64)
      else Put(s, r, k.(pc := Loading(want)))
    case Reading(want) =>
      var got := Got(k, want);
      Put(s, r, Reader(k.stream, k.taken + got, if got == want then Idle else Refunding(want - got)))
    case Refunding(back) => Put(s, r, k.(pc := Idle)).(n := (s.n + back) % TWO_64)
  }

  function Apply(s: State, m: Move): State {
    match m
    case Call(r, want) => if r < |s.readers| && s.readers[r].pc.Idle? then Put(s, r, s.readers[r].(pc := Loading(want))) else s
    case Go(r) => if r < |s.readers| then Step(s, r) else s
  }

  // ---- conservation ----

  /** Bytes reserved from the budget that are not read, or not yet, or not yet given back. */
  function InFlight(k: Reader): int {
    match k.pc case Reading(want) => want case Refunding(back) => back case _ => 0
  }

  function Taken(k: Reader): int { k.taken }

  ghost predicate ReaderOk(k: Reader) {
    && k.taken <= |k.stream|
    && (k.pc.Loaded? ==> k.pc.want <= k.pc.seen)
    && (k.pc.Refunding? ==> k.taken == |k.stream| && k.pc.back > 0)
  }

  ghost predicate Inv(s: State) {
    && s.limit < TWO_64
    && s.n + Sum(InFlight, s.readers) + Sum(Taken, s.readers) == s.limit
    && (forall r :: 0 <= r < |s.readers| ==> ReaderOk(s.readers[r]))
  }

  lemma ReserveKeeps(s: State, r: nat)
    requires Inv(s) && r < |s.readers| && (s.readers[r].pc.Idle? || s.readers[r].pc.Loading? || s.readers[r].pc.Loaded?)
    ensures Inv(Step(s, r))
  {
    var k := Step(s, r).readers[r];
    SumUpdate(InFlight, s.readers, r, k);
    SumUpdate(Taken, s.readers, r, k);
    AllThere(s.readers, r);
    assert ReaderOk(s.readers[r]);
  }

  lemma ReadKeeps(s: State, r: nat)
    requires Inv(s) && r < |s.readers| && s.readers[r].pc.Reading?
    ensures Inv(Step(s, r))
  {
    var k := Step(s, r).readers[r];
    SumUpdate(InFlight, s.readers, r, k);
    SumUpdate(Taken, s.readers, r, k);
    assert ReaderOk(s.readers[r]);
  }

  lemma RefundKeeps(s: State, r: nat)
    requires Inv(s) && r < |s.readers| && s.readers[r].pc.Refunding?
    ensures Inv(Step(s, r))
  {
    var k := Step(s, r).readers[r];
    SumUpdate(InFlight, s.readers, r, k);
    SumUpdate(Taken, s.readers, r, k);
    AllThere(s.readers, r);
    assert ReaderOk(s.readers[r]);
  }

  /** Nothing in flight or taken is negative, and no one reader has more than there is. */
  lemma AllThere(readers: seq<Reader>, r: nat)
    requires r < |readers|
    ensures 0 <= InFlight(readers[r]) <= Sum(InFlight, readers) && 0 <= Sum(Taken, readers)
  {
    SumAtLeast(InFlight, readers, r);
    SumNonNegative(Taken, readers);
  }

  /** The budget is within the limit, and has room for what a reader gives back. */
  lemma WithinLimit(s: State, r: nat)
    requires Inv(s) && r < |s.readers|
    ensures s.n + InFlight(s.readers[r]) <= s.limit < TWO_64
  {
    AllThere(s.readers, r);
  }

  lemma StepKeepsInv(s: State, m: Move)
    requires Inv(s)
    ensures Inv(Apply(s, m))
  {
    match m
    case Call(r, want) =>
      if r < |s.readers| && s.readers[r].pc.Idle? {
        SumUpdate(InFlight, s.readers, r, s.readers[r].(pc := Loading(want)));
        SumUpdate(Taken, s.readers, r, s.readers[r].(pc := Loading(want)));
      }
    case Go(r) =>
      if r < |s.readers| {
        match s.readers[r].pc
        case Reading(_) => ReadKeeps(s, r);
        case Refunding(_) => RefundKeeps(s, r);
        case _ => ReserveKeeps(s, r);
      }
  }

  lemma InitInv(limit: nat, streams: seq<seq<Byte>>)
    requires limit < TWO_64
    ensures Inv(Init(limit, streams))
  {
    SumOfZeros(InFlight, Init(limit, streams).readers);
    SumOfZeros(Taken, Init(limit, streams).readers);
  }

  // ---- over every run ----

  ghost predicate From(s: State, limit: nat, streams: seq<seq<Byte>>) {
    limit < TWO_64 && exists ms: seq<Move> :: s == Run(Apply, Init(limit, streams), ms)
  }

  ghost predicate About(s: State, limit: nat, streams: seq<seq<Byte>>) {
    Inv(s) && s.limit == limit && |s.readers| == |streams| && forall r :: 0 <= r < |streams| ==> s.readers[r].stream == streams[r]
  }

  lemma FromAbout(s: State, limit: nat, streams: seq<seq<Byte>>)
    requires From(s, limit, streams)
    ensures About(s, limit, streams)
  {
    var ms: seq<Move> :| s == Run(Apply, Init(limit, streams), ms);
    InitInv(limit, streams);
    forall s, m | About(s, limit, streams) ensures About(Apply(s, m), limit, streams) {
      StepKeepsInv(s, m);
    }
    RunKeeps(Apply, s => About(s, limit, streams), Init(limit, streams), ms);
  }

  /** What is left, what is reserved and what has been read always add up to the limit: the
      budget never wraps, and the readers together never read more than the limit. */
  lemma BudgetIsConserved(s: State, limit: nat, streams: seq<seq<Byte>>)
    requires From(s, limit, streams)
    ensures s.n + Sum(InFlight, s.readers) + Sum(Taken, s.readers) == limit
    ensures s.n <= limit && 0 <= Sum(Taken, s.readers) <= limit
  {
    FromAbout(s, limit, streams);
    SumNonNegative(InFlight, s.readers);
    SumNonNegative(Taken, s.readers);
  }

  /** With no read under way, what is gone from the budget is exactly what was read. */
  lemma IdleMeansCharged(s: State, limit: nat, streams: seq<seq<Byte>>)
    requires From(s, limit, streams) && forall r :: 0 <= r < |s.readers| ==> InFlight(s.readers[r]) == 0
    ensures limit - s.n == Sum(Taken, s.readers)
  {
    BudgetIsConserved(s, limit, streams);
    SumOfZeros(InFlight, s.readers);
  }

  /** The subtraction of a reservation and the addition of a refund never wrap, and a refund is
      what the read left unread. */
  lemma StepsDoNotWrap(s: State, limit: nat, streams: seq<seq<Byte>>, r: nat)
    requires From(s, limit, streams) && r < |s.readers|
    ensures var s' := Apply(s, Go(r)); var k, k' := s.readers[r], s'.readers[r];
            && (k.pc.Loaded? && s.n == k.pc.seen ==> s'.n == s.n - k.pc.want)
            && (k.pc.Refunding? ==> s'.n == s.n + k.pc.back)
            && (k.pc.Reading? && k'.pc.Refunding? ==> k'.pc.back == k.pc.want - (k'.taken - k.taken) && k'.taken == |k.stream|)
            && (k.pc.Reading? && k'.pc.Idle? ==> k'.taken == k.taken + k.pc.want)
  {
    FromAbout(s, limit, streams);
    AllThere(s.readers, r);
    assert ReaderOk(s.readers[r]);
  }
}
