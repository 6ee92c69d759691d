// Unknown fields, which decode skips at whatever depth they stand.
module Unknowns {
  import opened Options
  import opened Bytes
  import opened Wires
  import opened Decoding
  import opened Pubsub
  import opened PubsubSpec

  // The message types of pubsub.proto.
  datatype Kind =
    | KEntry | KLog | KEventV1 | KCall | KOutcome | KConfigV1 | KStatsV1
    | KEvent | KConfig | KStats | KMessageV1 | KMessage

  /** The tags a type's decode has a case for. */
  function Known(k: Kind): set<nat> {
    match k
    case KEntry => {10, 18}
    case KLog => {10, 16}
    case KEventV1 => {10, 18, 26}
    case KCall => {8, 18}
    case KOutcome => {8, 18}
    case KConfigV1 => {10, 18}
    case KStatsV1 => {8, 16}
    case KMessageV1 => {10, 18, 26}
    case _ => {10}
  }

  /** A number that the type does not know, or one it knows with another wire type. */
  predicate Unknown(k: Kind, w: Wire) { WellFormed(w) && Tag(w) !in Known(k) }

  /** The type of a field that holds a message. */
  function Child(k: Kind, num: nat): Option<Kind> {
    match k
    case KEventV1 => if num == 1 then Some(KEntry) else if num == 3 then Some(KLog) else None
    case KConfigV1 => if num == 1 then Some(KCall) else if num == 2 then Some(KOutcome) else None
    case KEvent => if num == 1 then Some(KEventV1) else None
    case KConfig => if num == 1 then Some(KConfigV1) else None
    case KStats => if num == 1 then Some(KStatsV1) else None
    case KMessageV1 => if num == 1 then Some(KEvent) else if num == 2 then Some(KConfig) else if num == 3 then Some(KStats) else None
    case KMessage => if num == 1 then Some(KMessageV1) else None
    case _ => None
  }

  // An unknown field among a message's fields, or inside the message that one of them holds.
  datatype Insertion =
    | Here(before: seq<Wire>, unknown: Wire, after: seq<Wire>)
    | Inside(before: seq<Wire>, num: nat, inner: Insertion, after: seq<Wire>)

  /** The bytes without the unknown field. */
  function Without(i: Insertion): seq<Byte> {
    match i
    case Here(before, _, after) => SerializeAll(before + after)
    case Inside(before, num, inner, after) => SerializeAll(before + [Delimited(num, Without(inner))] + after)
  }

  /** The bytes with it; the lengths of all that enclose it are longer by as much. */
  function With(i: Insertion): seq<Byte> {
    match i
    case Here(before, unknown, after) => SerializeAll(before + [unknown] + after)
    case Inside(before, num, inner, after) => SerializeAll(before + [Delimited(num, With(inner))] + after)
  }

  /** The insertion is into a message of type k. */
  predicate Legal(k: Kind, i: Insertion)
    decreases i
  {
    AllWellFormed(i.before) && AllWellFormed(i.after)
    && match i
       case Here(_, unknown, _) => Unknown(k, unknown)
       case Inside(_, num, inner, _) =>
         Child(k, num).Some? && Legal(Child(k, num).value, inner) && |Without(inner)| < TWO_32 && |With(inner)| < TWO_32
  }

  /** A field means nothing to a message if its tag is not one that decode knows. */
  lemma UnknownMeansNothing<T>(w: Wire, carries: Carrier<T>)
    requires WellFormed(w)
    ensures Unknown(KEntry, w) ==> forall m, m' :: EntryStep(m, w, m') <==> m' == m
    ensures Unknown(KLog, w) ==> forall m, m' :: LogStep(m, w, m') <==> m' == m
    ensures Unknown(KEventV1, w) ==> forall m, m' :: EventStep(m, w, m') <==> m' == m
    ensures Unknown(KCall, w) ==> forall m, m' :: CallStep(m, w, m') <==> m' == m
    ensures Unknown(KOutcome, w) ==> forall m, m' :: OutcomeStep(m, w, m') <==> m' == m
    ensures Unknown(KConfigV1, w) ==> forall m, m' :: ConfigStep(m, w, m') <==> m' == m
    ensures Unknown(KStatsV1, w) ==> forall m, m' :: StatsStep(m, w, m') <==> m' == m
    ensures Unknown(KMessageV1, w) ==> forall m, m' :: MessageStep(m, w, m') <==> m' == m
    ensures Tag(w) != 10 ==> forall m, m' :: WrapperStep(carries, m, w, m') <==> m' == m
  {
    TagIs(w);
  }

  // ---- one level ----

  /** The same messages are carried by both. */
  ghost predicate Agree<T(!new)>(carries: Carrier<T>, a: seq<Byte>, b: seq<Byte>) {
    forall m :: carries(a, m) <==> carries(b, m)
  }

  lemma CarriesExactly<M(!new)>(step: Step<M>, base: M, ws: seq<Wire>, m: M)
    requires AllWellFormed(ws)
    ensures Carries(step, base, SerializeAll(ws), m) <==> Follows(step, ws, base, m)
  {
    if Carries(step, base, SerializeAll(ws), m) {
      var vs :| AllWellFormed(vs) && SerializeAll(vs) == SerializeAll(ws) && Follows(step, vs, base, m);
      SerializesUniquely(vs, ws);
    }
  }

  lemma HereAgrees<M(!new)>(step: Step<M>, base: M, i: Insertion, m: M)
    requires i.Here? && AllWellFormed(i.before) && AllWellFormed(i.after) && WellFormed(i.unknown)
    requires forall m1, m2 :: step(m1, i.unknown, m2) <==> m2 == m1
    ensures Carries(step, base, Without(i), m) <==> Carries(step, base, With(i), m)
  {
    hide Follows;
    var vs, w, ws := i.before, i.unknown, i.after;
    CarriesExactly(step, base, vs + ws, m);
    CarriesExactly(step, base, vs + [w] + ws, m);
    if Follows(step, vs + ws, base, m) { InsertKeeps(step, vs, w, ws, base, m); }
    if Follows(step, vs + [w] + ws, base, m) { RemoveKeeps(step, vs, w, ws, base, m); }
  }

  lemma InsideAgrees<M(!new)>(step: Step<M>, base: M, i: Insertion, m: M)
    requires i.Inside? && AllWellFormed(i.before) && AllWellFormed(i.after)
    requires WellFormed(Delimited(i.num, Without(i.inner))) && WellFormed(Delimited(i.num, With(i.inner)))
    requires forall m1, m2 :: step(m1, Delimited(i.num, Without(i.inner)), m2) <==> step(m1, Delimited(i.num, With(i.inner)), m2)
    ensures Carries(step, base, Without(i), m) <==> Carries(step, base, With(i), m)
  {
    hide Follows;
    var vs, w, w', ws := i.before, Delimited(i.num, Without(i.inner)), Delimited(i.num, With(i.inner)), i.after;
    CarriesExactly(step, base, vs + [w] + ws, m);
    CarriesExactly(step, base, vs + [w'] + ws, m);
    if Follows(step, vs + [w] + ws, base, m) { ReplaceKeeps(step, vs, w, w', ws, base, m); }
    if Follows(step, vs + [w'] + ws, base, m) { ReplaceKeeps(step, vs, w', w, ws, base, m); }
  }

  lemma LevelAgrees<M(!new)>(step: Step<M>, base: M, carries: Carrier<M>, i: Insertion)
    requires forall bytes, m :: carries(bytes, m) == Carries(step, base, bytes, m)
    requires AllWellFormed(i.before) && AllWellFormed(i.after)
    requires i.Here? ==> WellFormed(i.unknown) && forall m1, m2 :: step(m1, i.unknown, m2) <==> m2 == m1
    requires i.Inside? ==>
               && WellFormed(Delimited(i.num, Without(i.inner))) && WellFormed(Delimited(i.num, With(i.inner)))
               && forall m1, m2 :: step(m1, Delimited(i.num, Without(i.inner)), m2) <==> step(m1, Delimited(i.num, With(i.inner)), m2)
    ensures Agree(carries, Without(i), With(i))
  {
    forall m ensures carries(Without(i), m) <==> carries(With(i), m) {
      if i.Here? { HereAgrees(step, base, i, m); } else { InsideAgrees(step, base, i, m); }
    }
  }

  // ---- every level ----

  lemma EntryAgrees(i: Insertion)
    requires Legal(KEntry, i)
    ensures Agree(CarriesEntry, Without(i), With(i))
  {
    if i.Here? { UnknownMeansNothing(i.unknown, CarriesMessageV1); }
    LevelAgrees(EntryStep, NO_ENTRY, CarriesEntry, i);
  }

  lemma LogAgrees(i: Insertion)
    requires Legal(KLog, i)
    ensures Agree(CarriesLog, Without(i), With(i))
  {
    if i.Here? { UnknownMeansNothing(i.unknown, CarriesMessageV1); }
    LevelAgrees(LogStep, NO_LOG, CarriesLog, i);
  }

  lemma CallAgrees(i: Insertion)
    requires Legal(KCall, i)
    ensures Agree(CarriesCall, Without(i), With(i))
  {
    if i.Here? { UnknownMeansNothing(i.unknown, CarriesMessageV1); }
    LevelAgrees(CallStep, NO_CALL, CarriesCall, i);
  }

  lemma OutcomeAgrees(i: Insertion)
    requires Legal(KOutcome, i)
    ensures Agree(CarriesOutcome, Without(i), With(i))
  {
    if i.Here? { UnknownMeansNothing(i.unknown, CarriesMessageV1); }
    LevelAgrees(OutcomeStep, NO_OUTCOME, CarriesOutcome, i);
  }

  lemma StatsV1Agrees(i: Insertion)
    requires Legal(KStatsV1, i)
    ensures Agree(CarriesStatsV1, Without(i), With(i))
  {
    if i.Here? { UnknownMeansNothing(i.unknown, CarriesMessageV1); }
    LevelAgrees(StatsStep, NO_STATS, CarriesStatsV1, i);
  }

  lemma EventV1Agrees(i: Insertion)
    requires Legal(KEventV1, i)
    ensures Agree(CarriesEventV1, Without(i), With(i))
  {
    if i.Here? {
      UnknownMeansNothing(i.unknown, CarriesMessageV1);
    } else {
      if i.num == 1 {
        EntryAgrees(i.inner);
      } else if i.num == 3 {
        LogAgrees(i.inner);
      }
    }
    LevelAgrees(EventStep, NO_EVENT, CarriesEventV1, i);
  }

  lemma ConfigV1Agrees(i: Insertion)
    requires Legal(KConfigV1, i)
    ensures Agree(CarriesConfigV1, Without(i), With(i))
  {
    if i.Here? {
      UnknownMeansNothing(i.unknown, CarriesMessageV1);
    } else {
      if i.num == 1 {
        CallAgrees(i.inner);
      } else if i.num == 2 {
        OutcomeAgrees(i.inner);
      }
    }
    LevelAgrees(ConfigStep, NO_CONFIG, CarriesConfigV1, i);
  }

  lemma WrapperAgrees<T(!new)>(k: Kind, carries: Carrier<T>, i: Insertion)
    requires Known(k) == {10} && Child(k, 1).Some? && Legal(k, i) && (i.Inside? ==> i.num == 1)
    requires i.Inside? ==> Agree(carries, Without(i.inner), With(i.inner))
    ensures forall m :: CarriesWrapper(carries, Without(i), m) <==> CarriesWrapper(carries, With(i), m)
  {
    if i.Here? { UnknownMeansNothing(i.unknown, carries); }
    var wraps := (bytes, m) => CarriesWrapper(carries, bytes, m);
    LevelAgrees((m0, w, m1) => WrapperStep(carries, m0, w, m1), Wrapper(Option.None), wraps, i);
    forall m ensures CarriesWrapper(carries, Without(i), m) <==> CarriesWrapper(carries, With(i), m) {
      assert wraps(Without(i), m) <==> wraps(With(i), m);
    }
  }

  lemma EventAgrees(i: Insertion)
    requires Legal(KEvent, i)
    ensures forall m :: CarriesWrapper(CarriesEventV1, Without(i), m) <==> CarriesWrapper(CarriesEventV1, With(i), m)
  {
    if i.Inside? { EventV1Agrees(i.inner); }
    WrapperAgrees(KEvent, CarriesEventV1, i);
  }

  lemma ConfigAgrees(i: Insertion)
    requires Legal(KConfig, i)
    ensures forall m :: CarriesWrapper(CarriesConfigV1, Without(i), m) <==> CarriesWrapper(CarriesConfigV1, With(i), m)
  {
    if i.Inside? { ConfigV1Agrees(i.inner); }
    WrapperAgrees(KConfig, CarriesConfigV1, i);
  }

  lemma StatsAgrees(i: Insertion)
    requires Legal(KStats, i)
    ensures forall m :: CarriesWrapper(CarriesStatsV1, Without(i), m) <==> CarriesWrapper(CarriesStatsV1, With(i), m)
  {
    if i.Inside? { StatsV1Agrees(i.inner); }
    WrapperAgrees(KStats, CarriesStatsV1, i);
  }

  lemma MessageV1Agrees(i: Insertion)
    requires Legal(KMessageV1, i)
    ensures Agree(CarriesMessageV1, Without(i), With(i))
  {
    if i.Here? {
      UnknownMeansNothing(i.unknown, CarriesMessageV1);
    } else {
      if i.num == 1 {
        EventAgrees(i.inner);
      } else if i.num == 2 {
        ConfigAgrees(i.inner);
      } else if i.num == 3 {
        StatsAgrees(i.inner);
      }
    }
    LevelAgrees(MessageStep, NO_MESSAGE, CarriesMessageV1, i);
  }

  /** One unknown field more, at any depth, with the lengths around it adjusted: the bytes carry the
      message they carried, and no other. */
  lemma MessageAgrees(i: Insertion)
    requires Legal(KMessage, i)
    ensures Agree(CarriesMessage, Without(i), With(i))
  {
    if i.Inside? { MessageV1Agrees(i.inner); }
    WrapperAgrees(KMessage, CarriesMessageV1, i);
    forall m ensures CarriesMessage(Without(i), m) <==> CarriesMessage(With(i), m) {
      assert CarriesMessage(Without(i), m) == CarriesWrapper(CarriesMessageV1, Without(i), m);
      assert CarriesMessage(With(i), m) == CarriesWrapper(CarriesMessageV1, With(i), m);
    }
  }

  /** So decode does not notice it. */
  lemma DecodeSkipsUnknown(i: Insertion, m: Wrapper<MessageV1>)
    requires Legal(KMessage, i) && (CarriesMessage(Without(i), m) || CarriesMessage(With(i), m))
    ensures DecodeMessage(With(i)) == DecodeMessage(Without(i)) == Some(m)
  {
    MessageAgrees(i);
    DecodesWhatCarries(Without(i), m);
    DecodesWhatCarries(With(i), m);
  }
}
