/**
 When WhatsApp last confirmed anything this socket sent: acknowledgements may come before the id they belong to
 is known, so unknown ones are parked and claimed later; both memories are bounded. Acknowledgements come in
 batches, and the look through a batch ends at the first id that is known.
 */
module AckTracking {
  import opened Wrappers

  const SUBMITTED_ID_HISTORY := 500
  const UNMATCHED_ACK_HISTORY := 100

  type Id = string

  datatype Ack = Ack(id: Id, at: int)

  datatype State = State(
    submitted: seq<Id>,              // an insertion-ordered set
    parked: seq<Ack>,                // an insertion-ordered map
    lastAckAt: Option<int>,
    now: int,
    acks: seq<Ack>,                  // history: every acknowledgement this socket received
    subs: set<Id>                    // and every id it submitted
  )

  datatype Event = Submit(id: Id) | Acked(ids: seq<Id>) | NewSocket | Tick(ms: nat)

  function ParkedAt(parked: seq<Ack>, id: Id): Option<int> {
    if parked == [] then None
    else if parked[0].id == id then Some(parked[0].at)
    else ParkedAt(parked[1..], id)
  }

  function Unparked(parked: seq<Ack>, id: Id): (r: seq<Ack>)
    ensures |r| <= |parked| && forall a :: a in r <==> a in parked && a.id != id
  {
    if parked == [] then []
    else if parked[0].id == id then Unparked(parked[1..], id)
    else [parked[0]] + Unparked(parked[1..], id)
  }

  // Map.set keeps the place of a key that is already there.
  function Parked(parked: seq<Ack>, id: Id, at: int): (r: seq<Ack>)
    ensures forall a :: a in r <==> (a in parked && a.id != id) || a == Ack(id, at)
    ensures |r| <= |parked| + 1
  {
    if parked == [] then [Ack(id, at)]
    else if parked[0].id == id then [Ack(id, at)] + Unparked(parked[1..], id)
    else [parked[0]] + Parked(parked[1..], id, at)
  }

  function Later(a: Option<int>, at: int): Option<int> {
    if a.Some? && a.value >= at then a else Some(at)
  }

  // Room is made before looking whether the id is already there.
  function Track(submitted: seq<Id>, id: Id): seq<Id> {
    var room := if |submitted| >= SUBMITTED_ID_HISTORY then submitted[1..] else submitted;
    if id in room then room else room + [id]
  }

  function SubmitStep(s: State, id: Id): State {
    var s1 := s.(submitted := Track(s.submitted, id), subs := s.subs + {id});
    var ackedAt := ParkedAt(s.parked, id);
    if ackedAt.None? then s1
    else s1.(parked := Unparked(s.parked, id), lastAckAt := Later(s.lastAckAt, ackedAt.value))
  }

  // What the rest of a batch adds to the history when nobody looks at it any more.
  function Stamped(ids: seq<Id>, at: int): seq<Ack> {
    seq(|ids|, i requires 0 <= i < |ids| => Ack(ids[i], at))
  }

  function Park(s: State, id: Id): State {
    var room := if |s.parked| >= UNMATCHED_ACK_HISTORY then s.parked[1..] else s.parked;
    s.(parked := Parked(room, id, s.now), acks := s.acks + [Ack(id, s.now)])
  }

  function Hit(s: State, ids: seq<Id>): State {
    s.(lastAckAt := Some(s.now), acks := s.acks + Stamped(ids, s.now))
  }

  function AckedStep(s: State, ids: seq<Id>): State
    decreases |ids|
  {
    if ids == [] then s
    else if ids[0] in s.submitted then Hit(s, ids)
    else AckedStep(Park(s, ids[0]), ids[1..])
  }

  function Step(s: State, e: Event): State {
    match e
    case Submit(id) => SubmitStep(s, id)
    case Acked(ids) => AckedStep(s, ids)
    case NewSocket => State([], [], None, s.now, [], {})
    case Tick(ms) => s.(now := s.now + ms)
  }

  function Run(s: State, es: seq<Event>): State
    decreases |es|
  {
    if es == [] then s else Run(Step(s, es[0]), es[1..])
  }

  function Boot(now: int): State { State([], [], None, now, [], {}) }

  // ---- evidence, never invented and never taken back ----

  ghost predicate Inv(s: State) {
    && (forall id | id in s.submitted :: id in s.subs)
    && (forall a | a in s.parked :: a in s.acks)
    && (forall a | a in s.acks :: a.at <= s.now)
    && (s.lastAckAt.Some? ==> exists a :: a in s.acks && a.id in s.subs && a.at == s.lastAckAt.value)
    && |s.submitted| <= SUBMITTED_ID_HISTORY && |s.parked| <= UNMATCHED_ACK_HISTORY
  }

  lemma {:induction false} ParkedAtIsParked(parked: seq<Ack>, id: Id)
    ensures ParkedAt(parked, id).Some? ==> Ack(id, ParkedAt(parked, id).value) in parked
    ensures ParkedAt(parked, id).None? ==> forall a | a in parked :: a.id != id
  {
    if parked != [] && parked[0].id != id {
      ParkedAtIsParked(parked[1..], id);
      assert forall a :: a in parked <==> a == parked[0] || a in parked[1..];
    }
  }

  lemma SubmitKeepsInv(s: State, id: Id)
    requires Inv(s)
    ensures Inv(SubmitStep(s, id))
  {
    var s' := SubmitStep(s, id);
    ParkedAtIsParked(s.parked, id);
    var found := ParkedAt(s.parked, id);
    if found.Some? && s'.lastAckAt == found {
      assert Ack(id, found.value) in s'.acks && id in s'.subs;
    }
  }

  lemma {:induction false} AckedKeepsInv(s: State, ids: seq<Id>)
    requires Inv(s)
    ensures Inv(AckedStep(s, ids))
    ensures AckedStep(s, ids).submitted == s.submitted && AckedStep(s, ids).subs == s.subs
    ensures AckedStep(s, ids).lastAckAt == s.lastAckAt || AckedStep(s, ids).lastAckAt == Some(s.now)
    decreases |ids|
  {
    if ids != [] {
      if ids[0] in s.submitted {
        assert Hit(s, ids).acks[|s.acks|] == Ack(ids[0], s.now);
      } else {
        assert Park(s, ids[0]).acks[|s.acks|] == Ack(ids[0], s.now);
        AckedKeepsInv(Park(s, ids[0]), ids[1..]);
      }
    }
  }

  lemma StepKeepsInv(s: State, e: Event)
    requires Inv(s)
    ensures Inv(Step(s, e))
    ensures !e.NewSocket? && s.lastAckAt.Some? ==>
              Step(s, e).lastAckAt.Some? && s.lastAckAt.value <= Step(s, e).lastAckAt.value
  {
    if e.Submit? {
      SubmitKeepsInv(s, e.id);
    } else if e.Acked? {
      AckedKeepsInv(s, e.ids);
    }
  }

  lemma {:induction false} RunKeepsInv(s: State, es: seq<Event>)
    requires Inv(s)
    ensures Inv(Run(s, es))
    decreases |es|
  {
    if es != [] {
      StepKeepsInv(s, es[0]);
      RunKeepsInv(Step(s, es[0]), es[1..]);
    }
  }

  /**
   In every run the reported time is that of a real acknowledgement, received on this socket, of a message this
   socket submitted; and both memories stay within their bounds.
   */
  lemma EvidenceIsReal(now: int, es: seq<Event>)
    ensures var s := Run(Boot(now), es);
            && (s.lastAckAt.Some? ==> exists a :: a in s.acks && a.id in s.subs && a.at == s.lastAckAt.value)
            && |s.submitted| <= 500 && |s.parked| <= 100
  {
    RunKeepsInv(Boot(now), es);
  }

  /** On one socket it never moves back, however late a parked acknowledgement is claimed. */
  lemma {:induction false} NeverBackwards(s: State, es: seq<Event>)
    requires Inv(s) && forall e | e in es :: !e.NewSocket?
    ensures s.lastAckAt.Some? ==> Run(s, es).lastAckAt.Some? && s.lastAckAt.value <= Run(s, es).lastAckAt.value
    decreases |es|
  {
    if es != [] {
      assert es[0] in es;
      StepKeepsInv(s, es[0]);
      NeverBackwards(Step(s, es[0]), es[1..]);
    }
  }

  // Every acknowledgement and every submission since the last socket, read off the run itself.
  function AcksIn(es: seq<Event>, now: int): seq<Ack> {
    if es == [] then []
    else
      var last, before := es[|es| - 1], es[..|es| - 1];
      match last
      case Acked(ids) => AcksIn(before, now) + Stamped(ids, Clock(before, now))
      case NewSocket => []
      case _ => AcksIn(before, now)
  }

  function SubsIn(es: seq<Event>): set<Id> {
    if es == [] then {}
    else
      var last, before := es[|es| - 1], es[..|es| - 1];
      match last
      case Submit(id) => SubsIn(before) + {id}
      case NewSocket => {}
      case _ => SubsIn(before)
  }

  function Clock(es: seq<Event>, now: int): int {
    if es == [] then now
    else Clock(es[..|es| - 1], now) + if es[|es| - 1].Tick? then es[|es| - 1].ms else 0
  }

  lemma {:induction false} AckedRecords(s: State, ids: seq<Id>)
    ensures AckedStep(s, ids).acks == s.acks + Stamped(ids, s.now)
    ensures AckedStep(s, ids).now == s.now && AckedStep(s, ids).subs == s.subs
    decreases |ids|
  {
    if ids != [] && ids[0] !in s.submitted {
      AckedRecords(Park(s, ids[0]), ids[1..]);
      assert Stamped(ids, s.now) == [Ack(ids[0], s.now)] + Stamped(ids[1..], s.now);
    }
  }

  lemma {:induction false} RunSnoc(s: State, es: seq<Event>)
    requires es != []
    ensures Run(s, es) == Step(Run(s, es[..|es| - 1]), es[|es| - 1])
    decreases |es|
  {
    if |es| > 1 {
      RunSnoc(Step(s, es[0]), es[1..]);
      assert es[1..][..|es| - 2] == es[..|es| - 1][1..];
    }
  }

  /** The histories the statements speak of are those of the run: nothing that happened is left out of them. */
  lemma {:induction false} HistoriesAreTrue(now: int, es: seq<Event>)
    ensures var s := Run(Boot(now), es);
            s.acks == AcksIn(es, now) && s.subs == SubsIn(es) && s.now == Clock(es, now)
    decreases |es|
  {
    if es != [] {
      var last, before := es[|es| - 1], es[..|es| - 1];
      RunSnoc(Boot(now), es);
      HistoriesAreTrue(now, before);
      if last.Acked? {
        AckedRecords(Run(Boot(now), before), last.ids);
      }
    }
  }

  ghost predicate AllDiffer(ids: seq<Id>) {
    forall i, j | 0 <= i < j < |ids| :: ids[i] != ids[j]
  }

  lemma StepKeepsDistinct(s: State, e: Event)
    requires AllDiffer(s.submitted)
    ensures AllDiffer(Step(s, e).submitted)
  {
    if e.Acked? {
      AckedSparesSubmitted(s, e.ids);
    }
  }

  lemma {:induction false} AckedSparesSubmitted(s: State, ids: seq<Id>)
    ensures AckedStep(s, ids).submitted == s.submitted
    decreases |ids|
  {
    if ids != [] && ids[0] !in s.submitted {
      AckedSparesSubmitted(Park(s, ids[0]), ids[1..]);
    }
  }

  /** No id is remembered twice, so none takes the room of another. */
  lemma {:induction false} NoIdTwice(s: State, es: seq<Event>)
    requires AllDiffer(s.submitted)
    ensures AllDiffer(Run(s, es).submitted)
    decreases |es|
  {
    if es != [] {
      StepKeepsDistinct(s, es[0]);
      NoIdTwice(Step(s, es[0]), es[1..]);
    }
  }

  /** An acknowledgement is claimed once: the id's own is taken out of the parked ones, and no other. */
  lemma ClaimsOnce(s: State, id: Id)
    ensures forall a :: a in Step(s, Submit(id)).parked <==> a in s.parked && a.id != id
  {
    ParkedAtIsParked(s.parked, id);
  }

  // ---- and nothing missed ----

  // Looking through the batch never has to make room.
  predicate RoomyBatch(s: State, ids: seq<Id>)
    decreases |ids|
  {
    ids == [] || ids[0] in s.submitted
    || (|s.parked| < UNMATCHED_ACK_HISTORY && RoomyBatch(Park(s, ids[0]), ids[1..]))
  }

  // No step of the run has to make room.
  predicate Roomy(s: State, es: seq<Event>)
    decreases |es|
  {
    es == [] ||
    ((es[0].Submit? ==> |s.submitted| < SUBMITTED_ID_HISTORY)
     && (es[0].Acked? ==> RoomyBatch(s, es[0].ids))
     && Roomy(Step(s, es[0]), es[1..]))
  }

  // No acknowledgement of the id is later than what is reported, or than the one it is parked with.
  ghost predicate IsKeptFor(s: State, a: Ack) {
    || (s.lastAckAt.Some? && a.at <= s.lastAckAt.value)
    || exists p | p in s.parked :: p.id == a.id && a.at <= p.at
  }

  // Everything submitted is remembered; an acknowledgement of an unknown id is parked at its latest time, unless
  // it came no later than what is reported; and one of a known id is not later than that.
  ghost predicate Complete(s: State) {
    && (forall id | id in s.subs :: id in s.submitted)
    && (forall a | a in s.acks && a.id !in s.subs :: IsKeptFor(s, a))
    && (forall a | a in s.acks && a.id in s.subs :: s.lastAckAt.Some? && a.at <= s.lastAckAt.value)
    && (forall a, b | a in s.parked && b in s.parked && a.id == b.id :: a == b)
  }

  // The acknowledgements of ids still unknown are parked as before.
  lemma SubmitKeepsParked(s: State, id: Id)
    requires Inv(s) && Complete(s)
    ensures forall a | a in SubmitStep(s, id).acks && a.id !in SubmitStep(s, id).subs :: IsKeptFor(SubmitStep(s, id), a)
  {
    var s' := SubmitStep(s, id);
    forall a | a in s'.acks && a.id !in s'.subs
      ensures IsKeptFor(s', a)
    {
      assert IsKeptFor(s, a);
      if p :| p in s.parked && p.id == a.id && a.at <= p.at {
        assert p in s'.parked;
      }
    }
  }

  // And one of the id just learnt, if there was any, has been claimed.
  lemma SubmitClaims(s: State, id: Id, a: Ack)
    requires Inv(s) && Complete(s) && a in s.acks && a.id in s.subs + {id}
    ensures SubmitStep(s, id).lastAckAt.Some? && a.at <= SubmitStep(s, id).lastAckAt.value
  {
    ParkedAtIsParked(s.parked, id);
    if a.id !in s.subs {
      assert IsKeptFor(s, a);
      if p :| p in s.parked && p.id == a.id && a.at <= p.at {
        assert Ack(id, ParkedAt(s.parked, id).value) == p;
      }
    }
  }

  lemma SubmitKeepsComplete(s: State, id: Id)
    requires Inv(s) && Complete(s) && |s.submitted| < SUBMITTED_ID_HISTORY
    ensures Complete(SubmitStep(s, id))
  {
    var s' := SubmitStep(s, id);
    SubmitKeepsParked(s, id);
    forall a | a in s'.acks && a.id in s'.subs
      ensures s'.lastAckAt.Some? && a.at <= s'.lastAckAt.value
    {
      SubmitClaims(s, id, a);
    }
  }

  lemma ParkKeepsComplete(s: State, id: Id)
    requires Inv(s) && Complete(s) && |s.parked| < UNMATCHED_ACK_HISTORY && id !in s.submitted
    ensures Complete(Park(s, id)) && Inv(Park(s, id))
  {
    var s' := Park(s, id);
    assert s'.acks[|s.acks|] == Ack(id, s.now);
    forall a | a in s'.acks && a.id !in s'.subs
      ensures IsKeptFor(s', a)
    {
      if a.id == id {
        assert Ack(id, s.now) in s'.parked;
      } else {
        assert IsKeptFor(s, a);
        if p :| p in s.parked && p.id == a.id && a.at <= p.at {
          assert p in s'.parked;
        }
      }
    }
  }

  // What is not looked at is no later than what is reported now.
  lemma {:induction false} AckedKeepsComplete(s: State, ids: seq<Id>)
    requires Inv(s) && Complete(s) && RoomyBatch(s, ids)
    ensures Complete(AckedStep(s, ids))
    decreases |ids|
  {
    if ids != [] {
      if ids[0] in s.submitted {
        var s' := Hit(s, ids);
        assert forall a | a in s'.acks :: a in s.acks || a.at == s.now;
      } else {
        ParkKeepsComplete(s, ids[0]);
        AckedKeepsComplete(Park(s, ids[0]), ids[1..]);
      }
    }
  }

  lemma {:induction false} RunKeepsComplete(s: State, es: seq<Event>)
    requires Inv(s) && Complete(s) && Roomy(s, es)
    ensures Complete(Run(s, es)) && Inv(Run(s, es))
    decreases |es|
  {
    if es != [] {
      StepKeepsInv(s, es[0]);
      match es[0] {
        case Submit(id) => SubmitKeepsComplete(s, id);
        case Acked(ids) => AckedKeepsComplete(s, ids);
        case NewSocket =>
        case Tick(_) =>
      }
      RunKeepsComplete(Step(s, es[0]), es[1..]);
    }
  }

  /**
   While neither memory overflows, the reported time is the latest acknowledgement of any submitted message, in
   whichever order ids and acknowledgements became known and however the latter were batched; and it is absent
   exactly when there is none. Ending the look through a batch early costs nothing.
   */
  lemma LatestAckIsReported(now: int, es: seq<Event>)
    requires Roomy(Boot(now), es)
    ensures var last, acks, subs := Run(Boot(now), es).lastAckAt, AcksIn(es, now), SubsIn(es);
            && (last.None? <==> forall a | a in acks :: a.id !in subs)
            && (last.Some? ==> forall a | a in acks && a.id in subs :: a.at <= last.value)
            && (last.Some? ==> exists a :: a in acks && a.id in subs && a.at == last.value)
  {
    RunKeepsComplete(Boot(now), es);
    HistoriesAreTrue(now, es);
  }

  // ---- the connection's own members ----

  class AckTracker {
    var submitted: seq<Id>
    var parked: seq<Ack>
    var lastOutgoingAckAt: Option<int>
    var now: int
    var acks: seq<Ack>
    var subs: set<Id>

    function Now(): State
      reads this
    {
      State(submitted, parked, lastOutgoingAckAt, now, acks, subs)
    }

    constructor (at: int)
      ensures Now() == Boot(at)
    {
      submitted, parked, lastOutgoingAckAt, now, acks, subs := [], [], None, at, [], {};
    }

    method TrackSubmittedId(id: Id)
      modifies this
      ensures Now() == Step(old(Now()), Submit(id))
    {
      if |submitted| >= SUBMITTED_ID_HISTORY {
        submitted := submitted[1..];
      }
      if id !in submitted {
        submitted := submitted + [id];
      }
      subs := subs + {id};
      var ackedAt := ParkedAt(parked, id);
      if ackedAt.Some? {
        parked := Unparked(parked, id);
        if lastOutgoingAckAt.None? || lastOutgoingAckAt.value < ackedAt.value {
          lastOutgoingAckAt := ackedAt;
        }
      }
    }

    method RememberUnmatchedAck(id: Id)
      modifies this`parked, this`acks
      ensures Now() == Park(old(Now()), id)
    {
      if |parked| >= UNMATCHED_ACK_HISTORY {
        parked := parked[1..];
      }
      parked := Parked(parked, id, now);
      acks := acks + [Ack(id, now)];
    }

    // trackOutgoingAck and trackOutgoingReceiptAck, on the keys that carry evidence and are `fromMe`.
    method OnAcks(ids: seq<Id>)
      modifies this
      ensures Now() == Step(old(Now()), Acked(ids))
    {
      for i := 0 to |ids|
        invariant AckedStep(Now(), ids[i..]) == AckedStep(old(Now()), ids)
      {
        if ids[i] in submitted {
          acks := acks + Stamped(ids[i..], now);
          lastOutgoingAckAt := Some(now);
          return;
        }
        RememberUnmatchedAck(ids[i]);
        assert ids[i..][1..] == ids[i + 1..];
      }
    }
  }
}
