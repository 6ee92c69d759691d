// tracer/manager.go as objects: a block under its mutex, and the loop of Manager.Insert.
module Managers {
  import opened Options
  import opened Schedules
  import opened Blocks

  function TotalLength(events: seq<string>): nat {
    if events == [] then 0 else TotalLength(events[..|events| - 1]) + |events[|events| - 1]|
  }

  // A block as its mutex's holder sees it.
  datatype Contents = Contents(events: seq<string>, frozen: bool, flushed: bool)

  function Inserting(c: Contents, event: string): Contents {
    if c.frozen then c else c.(events := c.events + [event])
  }

  function FlushingOnce(c: Contents, outcome: Outcome): Contents {
    if c.flushed then c else c.(frozen := true, flushed := c.events == [] || outcome.Acked?)
  }

  const EMPTY := Contents([], false, false)

  class EventBlock {
    var events: seq<string>
    var frozen: bool
    var flushed: bool
    var count: nat
    var bytes: nat

    /** The logged size is the real one whenever the mutex is free. */
    ghost predicate Valid()
      reads this
    {
      count == |events| && bytes == TotalLength(events)
    }

    function Read(): Contents
      reads this
    {
      Contents(events, frozen, flushed)
    }

    constructor ()
      ensures Valid() && Read() == EMPTY
    {
      events, frozen, flushed, count, bytes := [], false, false, 0, 0;
    }

    method Reset()
      modifies this
      ensures Valid() && Read() == EMPTY
    {
      events, frozen, flushed := [], false, false;
      count, bytes := 0, 0;
    }

    method Insert(event: string) returns (ok: bool)
      requires Valid()
      modifies this
      ensures Valid() && ok == !old(frozen)
      ensures Read() == Inserting(old(Read()), event)
    {
      if frozen {
        return false;
      }
      events := events + [event];
      count := count + 1;
      bytes := bytes + |event|;
      assert events[..|events| - 1] == old(events);
      return true;
    }

    /** outcome: what the calls after the freeze led to, if there is anything to send. */
    method FlushOnce(outcome: Outcome) returns (ok: bool, sent: Option<seq<string>>)
      requires Valid()
      modifies this
      ensures Valid() && Read() == FlushingOnce(old(Read()), outcome)
      ensures ok == (!old(flushed) && (events == [] || outcome.Acked?))
      ensures sent == if old(flushed) || events == [] || outcome.Early? then None else Some(events)
    {
      if flushed {
        return false, None;
      }
      frozen := true;
      if |events| == 0 {
        flushed := true;
        return true, None;
      }
      match outcome {
        case Early => return false, None;
        case Refused => return false, Some(events);
        case Acked =>
          flushed := true;
          return true, Some(events);
      }
    }

    /** At most two attempts; every batch sent is the whole block. */
    method Flush(token: bool, first: Outcome, second: Outcome) returns (ok: bool, sent: seq<seq<string>>)
      requires Valid() && !flushed
      modifies this
      ensures Valid() && events == old(events)
      ensures forall i :: 0 <= i < |sent| ==> sent[i] == events
      ensures |sent| == if !token || events == [] then 0
                        else (if first.Early? then 0 else 1) + (if first.Acked? || second.Early? then 0 else 1)
      ensures ok == (!token || events == [] || first.Acked? || second.Acked?)
      ensures !token ==> frozen == old(frozen) && !flushed
      ensures token ==> frozen && flushed == ok
    {
      sent := [];
      if !token {
        return true, sent;
      }
      var batch;
      ok, batch := FlushOnce(first);
      if batch.Some? {
        sent := sent + [batch.value];
      }
      if ok {
        return ok, sent;
      }
      ok, batch := FlushOnce(second);
      if batch.Some? {
        sent := sent + [batch.value];
      }
    }

    /** finalize and put: whatever became of the flush, the block comes back empty. */
    method Finalize(token: bool, first: Outcome, second: Outcome) returns (ok: bool, sent: seq<seq<string>>)
      requires Valid() && !flushed
      modifies this
      ensures Valid() && Read() == EMPTY
      ensures forall i :: 0 <= i < |sent| ==> sent[i] == old(events)
      ensures token && old(events) != [] && (!first.Early? || (!first.Acked? && !second.Early?)) ==> |sent| > 0
      ensures ok == (!token || old(events) == [] || first.Acked? || second.Acked?)
    {
      ok, sent := Flush(token, first, second);
      Reset();
    }
  }

  /** A block of the shared state holds the numbers of the Insert calls; text is what they insert. */
  function Of(b: Block, text: nat -> string): Contents {
    Contents(seq(|b.events|, i requires 0 <= i < |b.events| => text(b.events[i])), b.frozen, b.flushed)
  }

  /** The steps of the shared state do to their block what the methods of a block do. */
  lemma TryIsInsert(s: State, t: nat, text: nat -> string)
    requires Ready(s, t) && s.threads[t].pc.InsertTry? && s.blocks[s.threads[t].pc.seen].holder.None?
    ensures var b := s.threads[t].pc.seen;
            Of(StepTry(s, t).blocks[b], text) == Inserting(Of(s.blocks[b], text), text(t))
  {
    var b := s.threads[t].pc.seen;
    if !s.blocks[b].frozen {
      assert Of(StepTry(s, t).blocks[b], text).events == Of(s.blocks[b], text).events + [text(t)];
    }
  }

  lemma FreezeAndAnswerIsFlushOnce(s: State, t: nat, outcome: Outcome, text: nat -> string)
    requires Ready(s, t) && s.threads[t].pc.Freeze? && s.blocks[s.threads[t].pc.block].holder.None?
    ensures var b, s' := s.threads[t].pc.block, StepFreeze(s, t);
            && t < |s'.threads| && b < |s'.blocks| == |s.blocks|
            && (s'.threads[t].pc.Sending? ==> s'.threads[t].pc.block == b)
            && var after := if s'.threads[t].pc.Sending? then StepAnswer(s', t, outcome) else s';
               Of(after.blocks[b], text) == FlushingOnce(Of(s.blocks[b], text), outcome)
  {
  }

  lemma StepResetIsReset(s: State, t: nat, text: nat -> string)
    requires Ready(s, t) && s.threads[t].pc.Reset? && s.blocks[s.threads[t].pc.block].holder.None?
    ensures Of(StepReset(s, t).blocks[s.threads[t].pc.block], text) == EMPTY
  {
  }

  // What happens around one turn of Insert's loop: what the others do before each of its
  // steps, and where pool.Get finds a block.
  datatype Turn = Turn(beforeTry: seq<Move>, beforeGet: seq<Move>, from: Option<nat>, beforeSwap: seq<Move>)

  predicate Foreign(ms: seq<Move>, t: nat) {
    forall k :: 0 <= k < |ms| ==> match ms[k]
                                  case Go(u) => u != t
                                  case Get(u, _) => u != t
                                  case Answer(u, _) => u != t
                                  case _ => true
  }

  lemma {:induction false} ForeignKeeps(s: State, ms: seq<Move>, t: nat)
    requires Inv(s) && t < |s.threads| && Foreign(ms, t) && s.threads[t].fate == FRESH
    ensures Inv(Run(Apply, s, ms)) && t < |Run(Apply, s, ms).threads| && Run(Apply, s, ms).threads[t] == s.threads[t]
    decreases |ms|
  {
    if ms != [] {
      StepKeepsInv(s, ms[0]);
      ForeignStepKeeps(s, ms[0], t);
      ForeignKeeps(Apply(s, ms[0]), ms[1..], t);
    }
  }

  lemma ForeignStepKeeps(s: State, m: Move, t: nat)
    requires Inv(s) && t < |s.threads| && Foreign([m], t) && s.threads[t].fate == FRESH
    ensures t < |Apply(s, m).threads| && Apply(s, m).threads[t] == s.threads[t]
  {
    assert Foreign([m], t) && [m][0] == m;
    if m.Go? || m.Get? || m.Answer? {
      var u := m.thread;
      if u < |s.threads| {
        assert ThreadOk(s, u) && FateOk(s, u);
        if Owns(u, s.threads[u]).Some? {
          assert BlockOk(s, Owns(u, s.threads[u]).value.0);
        }
      }
    }
  }

  class Manager {
    const token: bool
    var blocks: seq<Block>
    var cur: nat
    var threads: seq<Thread>
    var handed: seq<Batch>

    function View(): State
      reads this
    {
      State(token, blocks, cur, threads, handed)
    }

    constructor (token: bool)
      ensures View() == Init(token)
    {
      this.token := token;
      blocks, cur, threads, handed := [CLEAN], 0, [], [];
    }

    method Do(m: Move)
      requires Inv(View())
      modifies this
      ensures View() == Apply(old(View()), m) && Inv(View())
    {
      StepKeepsInv(View(), m);
      var s := Apply(View(), m);
      TokenStays(View(), m);
      blocks, cur, threads, handed := s.blocks, s.cur, s.threads, s.handed;
    }

    method Interfere(ms: seq<Move>)
      requires Inv(View())
      modifies this
      ensures View() == Run(Apply, old(View()), ms) && Inv(View())
    {
      for k := 0 to |ms|
        invariant View() == Run(Apply, old(View()), ms[..k]) && Inv(View())
      {
        RunNext(Apply, old(View()), ms, k);
        Do(ms[k]);
      }
      assert ms[..|ms|] == ms;
    }

    /** block.insert on the block the caller loaded; waiting means its mutex is taken. */
    method TryInsert(t: nat) returns (ok: bool, waiting: bool)
      requires Inv(View()) && t < |threads| && threads[t].pc.InsertTry?
      modifies this
      ensures View() == Apply(old(View()), Go(t)) && Inv(View())
      ensures t < |threads| && waiting == (View() == old(View()) && threads[t].pc.InsertTry?)
      ensures ok ==> threads[t].fate.spot.InBlock? && (threads[t].pc.Finished? || threads[t].pc.Reset?)
      ensures !ok && !waiting ==> (threads[t].pc.InsertGet? || threads[t].pc.InsertSwap?) && threads[t].fate == FRESH
    {
      assert ThreadOk(View(), t) && FateOk(View(), t);
      StepKeepsInv(View(), Go(t));
      var seen, next := threads[t].pc.seen, threads[t].pc.next;
      if blocks[seen].holder.Some? {
        return false, true;
      }
      if blocks[seen].frozen {
        threads := threads[t := threads[t].(pc := if next.Some? then InsertSwap(seen, next.value) else InsertGet(seen))];
        return false, false;
      }
      var safe := BeforeFreeze(View(), blocks[seen]);
      blocks := blocks[seen := blocks[seen].(events := blocks[seen].events + [t])];
      threads := threads[t := threads[t].(pc := if next.Some? then Reset(next.value) else Finished,
                                          fate := threads[t].fate.(spot := InBlock(seen), safe := safe))];
      return true, false;
    }

    /** block := m.block.Load() */
    method Load(t: nat)
      requires Inv(View()) && t < |threads| && threads[t].pc.InsertLoad?
      modifies this
      ensures View() == Apply(old(View()), Go(t)) && Inv(View())
      ensures t < |threads| && threads[t].pc.InsertTry? && threads[t].pc.seen == old(cur) && threads[t].fate == FRESH
    {
      assert ThreadOk(View(), t);
      StepKeepsInv(View(), Go(t));
      threads := threads[t := threads[t].(pc := InsertTry(cur, threads[t].pc.next))];
    }

    /** m.pool.Get(): the block the pool had, or a new one. */
    method GetBlock(t: nat, from: Option<nat>) returns (got: bool)
      requires Inv(View()) && t < |threads| && threads[t].pc.InsertGet?
      modifies this
      ensures View() == Apply(old(View()), Get(t, from)) && Inv(View())
      ensures t < |threads| && threads[t].fate == FRESH
      ensures if got then threads[t].pc.InsertSwap? && threads[t].pc.seen == old(threads[t].pc.seen)
              else View() == old(View())
    {
      assert ThreadOk(View(), t);
      StepKeepsInv(View(), Get(t, from));
      var seen := threads[t].pc.seen;
      if from.None? {
        threads := threads[t := threads[t].(pc := InsertSwap(seen, |blocks|))];
        blocks := blocks + [CLEAN.(place := Private(t))];
        return true;
      }
      if from.value < |blocks| && blocks[from.value].place.Pooled? {
        blocks := blocks[from.value := blocks[from.value].(place := Private(t))];
        threads := threads[t := threads[t].(pc := InsertSwap(seen, from.value))];
        return true;
      }
      return false;
    }

    /** m.block.CompareAndSwap; the winner starts a goroutine that flushes the old block. */
    method SwapIn(t: nat) returns (won: bool)
      requires Inv(View()) && t < |threads| && threads[t].pc.InsertSwap?
      modifies this
      ensures View() == Apply(old(View()), Go(t)) && Inv(View())
      ensures t < |threads| && threads[t].pc.InsertLoad? && won == (old(cur) == old(threads[t].pc.seen))
    {
      assert ThreadOk(View(), t);
      StepKeepsInv(View(), Go(t));
      var seen, spare := threads[t].pc.seen, threads[t].pc.spare;
      if cur != seen {
        threads := threads[t := threads[t].(pc := InsertLoad(Some(spare)))];
        return false;
      }
      cur := spare;
      blocks := blocks[seen := blocks[seen].(place := Finalizing(|threads|))]
                      [spare := blocks[spare].(place := Current)];
      threads := threads[t := threads[t].(pc := InsertLoad(None))]
                 + [Thread(if token then Freeze(seen, false) else Reset(seen), FRESH, [])];
      return true;
    }

    /** One turn of the loop: load, insert, and if the block was frozen, swap in another. */
    method OneTurn(t: nat, turn: Turn) returns (ok: bool, waiting: bool, ghost trace: seq<Move>)
      requires Inv(View()) && t < |threads| && threads[t].pc.InsertLoad?
      requires Foreign(turn.beforeTry, t) && Foreign(turn.beforeGet, t) && Foreign(turn.beforeSwap, t)
      modifies this
      ensures View() == Run(Apply, old(View()), trace) && Inv(View()) && t < |threads|
      ensures ok ==> threads[t].fate.spot.InBlock? && (threads[t].pc.Finished? || threads[t].pc.Reset?)
      ensures !ok && !waiting ==> threads[t].pc.InsertLoad?
    {
      hide Apply, Inv;
      ghost var s0 := View();
      RunOne(Apply, s0, Go(t));
      Load(t);
      trace := [Go(t)];
      ForeignKeeps(View(), turn.beforeTry, t);
      RunAppend(Apply, s0, trace, turn.beforeTry);
      Interfere(turn.beforeTry);
      trace := trace + turn.beforeTry;
      RunThen(Apply, s0, trace, Go(t));
      ok, waiting := TryInsert(t);
      trace := trace + [Go(t)];
      if !ok && !waiting {
        ghost var more;
        waiting, more := SwapTurn(t, turn);
        RunAppend(Apply, s0, trace, more);
        trace := trace + more;
      }
    }

    /** Take a block from the pool unless there is a spare already, and swap it in. */
    method SwapTurn(t: nat, turn: Turn) returns (waiting: bool, ghost trace: seq<Move>)
      requires Inv(View()) && t < |threads| && (threads[t].pc.InsertGet? || threads[t].pc.InsertSwap?)
      requires threads[t].fate == FRESH && Foreign(turn.beforeGet, t) && Foreign(turn.beforeSwap, t)
      modifies this
      ensures View() == Run(Apply, old(View()), trace) && Inv(View()) && t < |threads|
      ensures !waiting ==> threads[t].pc.InsertLoad?
    {
      hide Apply, Inv;
      ghost var s0 := View();
      ForeignKeeps(View(), turn.beforeGet, t);
      Interfere(turn.beforeGet);
      trace := turn.beforeGet;
      if threads[t].pc.InsertGet? {
        RunThen(Apply, s0, trace, Get(t, turn.from));
        var got := GetBlock(t, turn.from);
        trace := trace + [Get(t, turn.from)];
        if !got {
          return true, trace;
        }
      }
      ForeignKeeps(View(), turn.beforeSwap, t);
      RunAppend(Apply, s0, trace, turn.beforeSwap);
      Interfere(turn.beforeSwap);
      trace := trace + turn.beforeSwap;
      RunThen(Apply, s0, trace, Go(t));
      var won := SwapIn(t);
      trace := trace + [Go(t)];
      return false, trace;
    }

    /** Insert, for as many turns as there are: it returns only with its event appended. */
    method Insert(turns: seq<Turn>) returns (t: nat, ok: bool, ghost trace: seq<Move>)
      requires Inv(View())
      requires forall k :: 0 <= k < |turns| ==>
                 && Foreign(turns[k].beforeTry, |threads|) && Foreign(turns[k].beforeGet, |threads|)
                 && Foreign(turns[k].beforeSwap, |threads|)
      modifies this
      ensures View() == Run(Apply, old(View()), trace) && Inv(View())
      ensures t == |old(threads)| < |threads|
      ensures ok ==> threads[t].fate.spot.InBlock? && (threads[t].pc.Finished? || threads[t].pc.Reset?)
    {
      ghost var s0 := View();
      t := |threads|;
      RunOne(Apply, s0, CallInsert);
      Do(CallInsert);
      trace := [CallInsert];
      for k := 0 to |turns|
        invariant View() == Run(Apply, s0, trace) && Inv(View())
        invariant t == |s0.threads| < |threads| && threads[t].pc.InsertLoad?
      {
        ghost var more;
        var waiting;
        ok, waiting, more := OneTurn(t, turns[k]);
        RunAppend(Apply, s0, trace, more);
        trace := trace + more;
        if ok || waiting {
          return t, ok, trace;
        }
      }
      ok := false;
    }
  }

  lemma TokenStays(s: State, m: Move)
    ensures Apply(s, m).token == s.token
  {
  }
}
