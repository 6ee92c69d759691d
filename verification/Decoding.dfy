// The loop that every decode of etc/subtrace-next/pubsub.ts runs: read a tag, let the message's
// own fields be set from it, leave at an end tag or a zero tag, skip anything else.
module Decoding {
  import opened Options
  import opened Bytes
  import opened Varints
  import opened Wires

  // What a message's switch makes of a tag: it set a field and the reader is at next; the read
  // failed; or the tag is not one of its fields.
  datatype Handled<M> = Done(message: M, next: nat) | Failed | NotMine

  type Handler<!M> = (seq<Byte>, nat, nat, M) -> Handled<M>

  /** The message and the reader's position at the end, if nothing fails. */
  function Loop<M>(handle: Handler<M>, buf: seq<Byte>, pos: nat, end: nat, m: M): Option<(M, nat)>
    decreases |buf| - pos
  {
    if pos >= end then Some((m, pos)) else
    match ReadVarint(buf, pos, MAX_VARINT)
    case None => None
    case Some((n, after)) =>
      var tag := n % TWO_32;
      match handle(buf, after, tag, m)
      case Failed => None
      case Done(m', next) => if after <= next <= |buf| then Loop(handle, buf, next, end, m') else None
      case NotMine =>
        if tag % 8 == 4 || tag == 0 then Some((m, after)) else
        match Skip(buf, after, tag % 8, Option.None)
        case None => None
        case Some(next) => Loop(handle, buf, next, end, m)
  }

  // ---- what a list of fields means to a message ----

  // How one field changes a message.
  type Step<!M> = (M, Wire, M) -> bool

  /** The fields, one after another, take the message from m0 to m. */
  ghost predicate Follows<M(!new)>(step: Step<M>, ws: seq<Wire>, m0: M, m: M)
    decreases |ws|
  {
    if ws == [] then m == m0 else exists m1 :: step(m0, ws[0], m1) && Follows(step, ws[1..], m1, m)
  }

  /** The handler does with a field's bytes what the field means, or leaves alone a field that
      means nothing. */
  ghost predicate Handles<M(!new)>(handle: Handler<M>, step: Step<M>) {
    forall buf, pos, m0, w, m1 :: HandlesOne(handle, step, buf, pos, m0, w, m1)
  }

  ghost predicate HandlesOne<M>(handle: Handler<M>, step: Step<M>, buf: seq<Byte>, pos: nat, m0: M, w: Wire, m1: M) {
    WellFormed(w) && step(m0, w, m1) && At(buf, pos, Body(w)) ==>
      || handle(buf, pos, Tag(w), m0) == Done(m1, pos + |Body(w)|)
      || (handle(buf, pos, Tag(w), m0).NotMine? && m1 == m0)
  }

  lemma LoopStep<M(!new)>(handle: Handler<M>, step: Step<M>, buf: seq<Byte>, pos: nat, end: nat, w: Wire, m0: M, m1: M)
    requires Handles(handle, step) && WellFormed(w) && step(m0, w, m1) && pos < end
    requires At(buf, pos, VarintOf(Tag(w))) && At(buf, pos + |VarintOf(Tag(w))|, Body(w))
    ensures Loop(handle, buf, pos, end, m0) == Loop(handle, buf, pos + |VarintOf(Tag(w))| + |Body(w)|, end, m1)
  {
    hide VarintOf, ReadVarint, Skip, Body;
    var after := pos + |VarintOf(Tag(w))|;
    assert HandlesOne(handle, step, buf, after, m0, w, m1);
    ReadsTag(buf, pos, Tag(w));
    TagParts(w);
    if handle(buf, after, Tag(w), m0).NotMine? {
      SkipsBody(buf, after, w, Option.None);
    }
  }

  lemma TagParts(w: Wire)
    requires WellFormed(w)
    ensures Tag(w) < TWO_32 && Tag(w) / 8 == w.num && Tag(w) % 8 == TypeOf(w) && Tag(w) != 0 && TypeOf(w) != 4
  {
  }

  /** The loop reads well-formed fields to their end, and the message is what they mean. */
  lemma {:induction false} LoopFollows<M(!new)>(handle: Handler<M>, step: Step<M>, buf: seq<Byte>, pos: nat, end: nat,
                                                ws: seq<Wire>, m0: M, m: M)
    requires Handles(handle, step) && AllWellFormed(ws) && Follows(step, ws, m0, m)
    requires At(buf, pos, SerializeAll(ws)) && end == pos + |SerializeAll(ws)|
    ensures Loop(handle, buf, pos, end, m0) == Some((m, end))
    decreases |ws|
  {
    hide VarintOf, Body, Loop;
    if ws == [] {
      LoopEnds(handle, buf, pos, m0);
    } else {
      var m1 :| step(m0, ws[0], m1) && Follows(step, ws[1..], m1, m);
      assert SerializeAll(ws) + [] == SerializeAll(ws) && SerializeAll(ws[1..]) + [] == SerializeAll(ws[1..]);
      FirstField(buf, pos, ws, []);
      LoopStep(handle, step, buf, pos, end, ws[0], m0, m1);
      LoopFollows(handle, step, buf, pos + |Serialize(ws[0])|, end, ws[1..], m1, m);
    }
  }

  lemma LoopEnds<M>(handle: Handler<M>, buf: seq<Byte>, pos: nat, m: M)
    ensures Loop(handle, buf, pos, pos, m) == Some((m, pos))
  {
  }

  lemma {:induction false} FollowsAppend<M(!new)>(step: Step<M>, vs: seq<Wire>, ws: seq<Wire>, m0: M, m1: M, m2: M)
    requires Follows(step, vs, m0, m1) && Follows(step, ws, m1, m2)
    ensures Follows(step, vs + ws, m0, m2)
    decreases |vs|
  {
    if vs == [] {
      assert vs + ws == ws;
    } else {
      var m :| step(m0, vs[0], m) && Follows(step, vs[1..], m, m1);
      FollowsAppend(step, vs[1..], ws, m, m1, m2);
      assert (vs + ws)[1..] == vs[1..] + ws && (vs + ws)[0] == vs[0];
    }
  }

  lemma FollowsOne<M(!new)>(step: Step<M>, w: Wire, m0: M, m1: M)
    requires step(m0, w, m1)
    ensures Follows(step, [w], m0, m1)
  {
    assert Follows(step, [w][1..], m1, m1);
  }

  lemma {:induction false} FollowsSplit<M(!new)>(step: Step<M>, vs: seq<Wire>, ws: seq<Wire>, m0: M, m2: M) returns (m1: M)
    requires Follows(step, vs + ws, m0, m2)
    ensures Follows(step, vs, m0, m1) && Follows(step, ws, m1, m2)
    decreases |vs|
  {
    if vs == [] {
      assert vs + ws == ws;
      m1 := m0;
    } else {
      assert (vs + ws)[1..] == vs[1..] + ws && (vs + ws)[0] == vs[0];
      var m :| step(m0, vs[0], m) && Follows(step, vs[1..] + ws, m, m2);
      m1 := FollowsSplit(step, vs[1..], ws, m, m2);
    }
  }

  /** A field that means nothing can stand anywhere. */
  lemma InsertKeeps<M(!new)>(step: Step<M>, vs: seq<Wire>, w: Wire, ws: seq<Wire>, m0: M, m: M)
    requires Follows(step, vs + ws, m0, m) && forall m1 :: step(m1, w, m1)
    ensures Follows(step, vs + [w] + ws, m0, m)
  {
    var m1 := FollowsSplit(step, vs, ws, m0, m);
    assert step(m1, w, m1);
    FollowsOne(step, w, m1, m1);
    FollowsAppend(step, vs, [w], m0, m1, m1);
    FollowsAppend(step, vs + [w], ws, m0, m1, m);
  }

  lemma RemoveKeeps<M(!new)>(step: Step<M>, vs: seq<Wire>, w: Wire, ws: seq<Wire>, m0: M, m: M)
    requires Follows(step, vs + [w] + ws, m0, m) && forall m1, m2 :: step(m1, w, m2) ==> m2 == m1
    ensures Follows(step, vs + ws, m0, m)
  {
    var m1, m2 := FollowsAround(step, vs, w, ws, m0, m);
    FollowsAppend(step, vs, ws, m0, m1, m);
  }

  lemma FollowsAround<M(!new)>(step: Step<M>, vs: seq<Wire>, w: Wire, ws: seq<Wire>, m0: M, m: M) returns (m1: M, m2: M)
    requires Follows(step, vs + [w] + ws, m0, m)
    ensures Follows(step, vs, m0, m1) && step(m1, w, m2) && Follows(step, ws, m2, m)
  {
    m2 := FollowsSplit(step, vs + [w], ws, m0, m);
    m1 := FollowsSplit(step, vs, [w], m0, m2);
    assert [w][1..] == [];
  }

  /** A field that means the same can stand for another. */
  lemma ReplaceKeeps<M(!new)>(step: Step<M>, vs: seq<Wire>, w: Wire, w': Wire, ws: seq<Wire>, m0: M, m: M)
    requires Follows(step, vs + [w] + ws, m0, m) && forall m1, m2 :: step(m1, w, m2) ==> step(m1, w', m2)
    ensures Follows(step, vs + [w'] + ws, m0, m)
  {
    var m1, m2 := FollowsAround(step, vs, w, ws, m0, m);
    FollowsOne(step, w', m1, m2);
    FollowsAppend(step, vs, [w'], m0, m1, m2);
    FollowsAppend(step, vs + [w'], ws, m0, m2, m);
  }
}
