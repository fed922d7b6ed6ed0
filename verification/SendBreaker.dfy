/**
 The sending half of one BaileysConnection: a bounded number of sends in flight, a breaker opened by
 consecutive timeouts, settlements that arrive after the caller was answered, sockets replaced underneath,
 and the keystore key the sends are known to be blocked on. Timeouts and settlements of a send arrive once
 each, as proved of withTimeout.
 */
module SendBreaker {
  import opened Wrappers

  const SEND_STALL_THRESHOLD := 3
  const MAX_IN_FLIGHT_SENDS := 8

  type SendId = nat
  type Token = nat
  type Key = string

  datatype Phase = Waiting | Abandoned | Settled
  datatype Send = Send(generation: nat, phase: Phase)

  // A rejection that is the keystore's own acquire timeout may name the key.
  datatype Failure = Ordinary | MutexTimeout(key: Option<Key>)

  datatype TxPhase = Acquired | Released | Stalled | TimedOut
  datatype TxNote = TxNote(key: Key, released: bool, at: int)

  datatype Sends = Sends(consecutive: int, inFlight: int, generation: nat, all: map<SendId, Send>)

  datatype Watch = Watch(
    wedgedTxKey: Option<Key>,
    txTimeoutAt: map<Key, int>,
    txReleasedAt: map<Key, int>,
    currentTxToken: Option<Token>,
    now: int,
    log: seq<TxNote>               // releases and timeouts of the current socket's keystore, in order
  )

  datatype State = State(sends: Sends, watch: Watch, isOpen: bool, isDiscarded: bool)

  datatype Admission = Admitted | NotConnected | SendStalled

  datatype Event =
    | Attempt(id: SendId)
    | Succeed(id: SendId)
    | Expire(id: SendId)
    | Reject(id: SendId, failure: Failure)
    | LateSettle(id: SendId, outcome: Option<Failure>)
    | Tx(token: Token, key: Key, phase: TxPhase)
    | NewSocket(token: Token)
    | Opened
    | Closed
    | Discard
    | Tick(ms: nat)

  function CanSend(s: State): Admission {
    if s.sends.inFlight >= MAX_IN_FLIGHT_SENDS then (if s.isOpen then SendStalled else NotConnected)
    else if s.sends.consecutive < SEND_STALL_THRESHOLD then Admitted
    else if s.isOpen then SendStalled else NotConnected
  }

  // clearSendStallState
  function Clear(s: State): State {
    s.(sends := s.sends.(consecutive := 0), watch := s.watch.(wedgedTxKey := None))
  }

  predicate IsCurrent(s: State, generation: nat) {
    generation == s.sends.generation
  }

  function Release(s: State, generation: nat): State {
    if IsCurrent(s, generation) then s.(sends := s.sends.(inFlight := s.sends.inFlight - 1)) else s
  }

  function MarkSend(s: State, id: SendId, phase: Phase): State
    requires id in s.sends.all
  {
    s.(sends := s.sends.(all := s.sends.all[id := s.sends.all[id].(phase := phase)]))
  }

  function Get(m: map<Key, int>, k: Key): int {
    if k in m then m[k] else 0
  }

  predicate AlreadyReleased(w: Watch, key: Key) {
    Get(w.txReleasedAt, key) >= Get(w.txTimeoutAt, key) && Get(w.txReleasedAt, key) > 0
  }

  function NoteMutexWedge(s: State, key: Option<Key>): State {
    if key.None? then s
    else if AlreadyReleased(s.watch, key.value) then Clear(s)
    else s.(watch := s.watch.(wedgedTxKey := key))
  }

  function RecordTimeout(s: State, generation: nat): State {
    if IsCurrent(s, generation) then s.(sends := s.sends.(consecutive := s.sends.consecutive + 1)) else s
  }

  function RejectStep(s: State, id: SendId, failure: Failure): State
    requires id in s.sends.all
  {
    var generation := s.sends.all[id].generation;
    var s1 := Release(MarkSend(s, id, Settled), generation);
    if failure.MutexTimeout? && IsCurrent(s1, generation)
    then RecordTimeout(NoteMutexWedge(s1, failure.key), generation)
    else s1
  }

  function RecordLateSettle(s: State, generation: nat, failure: Option<Failure>): State {
    if s.isDiscarded || !IsCurrent(s, generation) then s
    else
      match failure
      case None => Clear(s)
      case Some(MutexTimeout(key)) => NoteMutexWedge(s, key)
      case Some(Ordinary) =>
        var left := if s.sends.consecutive > 1 then s.sends.consecutive - 1 else 0;
        if left == 0 then Clear(s) else s.(sends := s.sends.(consecutive := left))
  }

  function LateStep(s: State, id: SendId, failure: Option<Failure>): State
    requires id in s.sends.all
  {
    var generation := s.sends.all[id].generation;
    RecordLateSettle(Release(MarkSend(s, id, Settled), generation), generation, failure)
  }

  function Noted(w: Watch, key: Key, released: bool): Watch {
    var w1 := w.(log := w.log + [TxNote(key, released, w.now)]);
    if released then w1.(txReleasedAt := w.txReleasedAt[key := w.now])
    else w1.(txTimeoutAt := w.txTimeoutAt[key := w.now])
  }

  function TxStep(s: State, token: Token, key: Key, phase: TxPhase): State {
    if Some(token) != s.watch.currentTxToken then s
    else
      match phase
      case Released =>
        var s1 := s.(watch := Noted(s.watch, key, true));
        if s.watch.wedgedTxKey == Some(key) then Clear(s1) else s1
      case TimedOut => s.(watch := Noted(s.watch, key, false))
      case _ => s
  }

  // connect(), once the new socket exists.
  function NewSocketStep(s: State, token: Token): State {
    s.(sends := s.sends.(generation := s.sends.generation + 1, consecutive := 0, inFlight := 0),
       watch := Watch(None, map[], map[], Some(token), s.watch.now, []))
  }

  predicate IsAt(s: State, id: SendId, phase: Phase) {
    id in s.sends.all && s.sends.all[id].phase == phase
  }

  function Step(s: State, e: Event): State {
    match e
    case Attempt(id) =>
      if id !in s.sends.all && CanSend(s).Admitted? then
        s.(sends := s.sends.(inFlight := s.sends.inFlight + 1,
                             all := s.sends.all[id := Send(s.sends.generation, Waiting)]))
      else s
    case Succeed(id) =>
      if IsAt(s, id, Waiting) then
        var generation := s.sends.all[id].generation;
        var s1 := Release(MarkSend(s, id, Settled), generation);
        if IsCurrent(s1, generation) then Clear(s1) else s1
      else s
    case Expire(id) =>
      if IsAt(s, id, Waiting) then RecordTimeout(MarkSend(s, id, Abandoned), s.sends.all[id].generation) else s
    case Reject(id, failure) => if IsAt(s, id, Waiting) then RejectStep(s, id, failure) else s
    case LateSettle(id, failure) => if IsAt(s, id, Abandoned) then LateStep(s, id, failure) else s
    case Tx(token, key, phase) => TxStep(s, token, key, phase)
    case NewSocket(token) => NewSocketStep(s, token)
    case Opened => Clear(s.(isOpen := true))
    case Closed => s.(isOpen := false)
    case Discard => s.(isDiscarded := true)
    case Tick(ms) => s.(watch := s.watch.(now := s.watch.now + ms))
  }

  function Run(s: State, es: seq<Event>): State
    decreases |es|
  {
    if es == [] then s else Run(Step(s, es[0]), es[1..])
  }

  function Boot(now: int): State {
    State(Sends(0, 0, 0, map[]), Watch(None, map[], map[], None, now, []), false, false)
  }

  // ---- the bounds ----

  // The live socket's sends whose operation has not settled, and those among them nobody has given up on.
  function Unsettled(b: Sends): set<SendId> {
    set id | id in b.all && b.all[id].generation == b.generation && !b.all[id].phase.Settled?
  }

  function Awaited(b: Sends): set<SendId> {
    set id | id in b.all && b.all[id].generation == b.generation && b.all[id].phase.Waiting?
  }

  ghost predicate Bounded(b: Sends) {
    && b.inFlight == |Unsettled(b)| <= MAX_IN_FLIGHT_SENDS
    && 0 <= b.consecutive && b.consecutive + |Awaited(b)| <= SEND_STALL_THRESHOLD - 1 + MAX_IN_FLIGHT_SENDS
    && (forall id | id in b.all :: b.all[id].generation <= b.generation)
  }

  // Every step but a new socket changes the table in at most one place.
  lemma UnsettledAfter(b: Sends, id: SendId, v: Send)
    ensures var b' := b.(all := b.all[id := v]);
            Unsettled(b') == if v.generation == b.generation && !v.phase.Settled?
                             then Unsettled(b) + {id} else Unsettled(b) - {id}
  {
    var b' := b.(all := b.all[id := v]);
    forall x
      ensures x in Unsettled(b') <==>
              if x == id then v.generation == b.generation && !v.phase.Settled? else x in Unsettled(b)
    {
    }
  }

  lemma AwaitedAfter(b: Sends, id: SendId, v: Send)
    ensures var b' := b.(all := b.all[id := v]);
            Awaited(b') == if v.generation == b.generation && v.phase.Waiting?
                           then Awaited(b) + {id} else Awaited(b) - {id}
  {
    var b' := b.(all := b.all[id := v]);
    forall x
      ensures x in Awaited(b') <==>
              if x == id then v.generation == b.generation && v.phase.Waiting? else x in Awaited(b)
    {
    }
  }

  lemma ChangeOne(b: Sends, id: SendId, v: Send)
    ensures var b' := b.(all := b.all[id := v]);
            && |Unsettled(b')| == |Unsettled(b)| - (if id in Unsettled(b) then 1 else 0)
                                  + (if v.generation == b.generation && !v.phase.Settled? then 1 else 0)
            && |Awaited(b')| == |Awaited(b)| - (if id in Awaited(b) then 1 else 0)
                                + (if v.generation == b.generation && v.phase.Waiting? then 1 else 0)
  {
    UnsettledAfter(b, id, v);
    AwaitedAfter(b, id, v);
    OneInOrOut(Unsettled(b), id);
    OneInOrOut(Awaited(b), id);
  }

  lemma OneInOrOut(ids: set<SendId>, id: SendId)
    ensures |ids + {id}| == |ids| - (if id in ids then 1 else 0) + 1
    ensures |ids - {id}| == |ids| - (if id in ids then 1 else 0)
  {
    if id in ids {
      assert ids + {id} == ids;
    } else {
      assert ids - {id} == ids;
    }
  }

  lemma AwaitedAreUnsettled(b: Sends)
    ensures Awaited(b) <= Unsettled(b) && |Awaited(b)| <= |Unsettled(b)|
  {
    assert Unsettled(b) == Awaited(b) + (Unsettled(b) - Awaited(b));
    assert |Unsettled(b)| == |Awaited(b)| + |Unsettled(b) - Awaited(b)|;
  }

  // The counters besides, the table is what the two sets are read from.
  lemma SetsReadTheTable(b: Sends, b': Sends)
    requires b'.all == b.all && b'.generation == b.generation
    ensures Unsettled(b') == Unsettled(b) && Awaited(b') == Awaited(b)
  {
  }

  lemma AttemptKeepsBounds(s: State, id: SendId)
    requires Bounded(s.sends)
    ensures Bounded(Step(s, Attempt(id)).sends)
  {
    var v := Send(s.sends.generation, Waiting);
    if id !in s.sends.all && CanSend(s).Admitted? {
      ChangeOne(s.sends, id, v);
      var b' := s.sends.(all := s.sends.all[id := v]);
      SetsReadTheTable(b', Step(s, Attempt(id)).sends);
      AwaitedAreUnsettled(s.sends);
    }
  }

  lemma ExpireKeepsBounds(s: State, id: SendId)
    requires Bounded(s.sends)
    ensures Bounded(Step(s, Expire(id)).sends)
  {
    if IsAt(s, id, Waiting) {
      var v := s.sends.all[id].(phase := Abandoned);
      ChangeOne(s.sends, id, v);
      SetsReadTheTable(s.sends.(all := s.sends.all[id := v]), Step(s, Expire(id)).sends);
    }
  }

  // After a settlement: the slot is free, and the counter may fall, or rise by one for a send still awaited.
  lemma SettledKeepsBounds(s: State, id: SendId, b': Sends)
    requires Bounded(s.sends) && id in s.sends.all && !s.sends.all[id].phase.Settled?
    requires b'.all == s.sends.all[id := s.sends.all[id].(phase := Settled)] && b'.generation == s.sends.generation
    requires b'.inFlight == s.sends.inFlight - (if IsCurrent(s, s.sends.all[id].generation) then 1 else 0)
    requires 0 <= b'.consecutive <=
             s.sends.consecutive + if IsAt(s, id, Waiting) && IsCurrent(s, s.sends.all[id].generation) then 1 else 0
    ensures Bounded(b')
  {
    var v := s.sends.all[id].(phase := Settled);
    ChangeOne(s.sends, id, v);
    SetsReadTheTable(s.sends.(all := s.sends.all[id := v]), b');
  }

  lemma WaitingSettledKeepsBounds(s: State, e: Event)
    requires Bounded(s.sends) && (e.Succeed? || e.Reject?)
    ensures Bounded(Step(s, e).sends)
  {
    if IsAt(s, e.id, Waiting) {
      SettledKeepsBounds(s, e.id, Step(s, e).sends);
    }
  }

  lemma LateSettleKeepsBounds(s: State, id: SendId, outcome: Option<Failure>)
    requires Bounded(s.sends)
    ensures Bounded(Step(s, LateSettle(id, outcome)).sends)
  {
    if IsAt(s, id, Abandoned) {
      SettledKeepsBounds(s, id, Step(s, LateSettle(id, outcome)).sends);
    }
  }

  lemma OtherEventKeepsBounds(s: State, e: Event)
    requires Bounded(s.sends) && (e.Tx? || e.Opened? || e.Closed? || e.Discard? || e.Tick?)
    ensures Bounded(Step(s, e).sends)
  {
  }

  lemma StepKeepsBounds(s: State, e: Event)
    requires Bounded(s.sends)
    ensures Bounded(Step(s, e).sends)
  {
    if e.Attempt? {
      AttemptKeepsBounds(s, e.id);
    } else if e.Expire? {
      ExpireKeepsBounds(s, e.id);
    } else if e.Succeed? || e.Reject? {
      WaitingSettledKeepsBounds(s, e);
    } else if e.LateSettle? {
      LateSettleKeepsBounds(s, e.id, e.outcome);
    } else if e.NewSocket? {
      NewSocketKeepsBounds(s, e.token);
    } else {
      OtherEventKeepsBounds(s, e);
    }
  }

  lemma NewSocketKeepsBounds(s: State, token: Token)
    requires Bounded(s.sends)
    ensures Bounded(NewSocketStep(s, token).sends)
  {
  }

  lemma {:induction false} RunKeepsBounds(s: State, es: seq<Event>)
    requires Bounded(s.sends)
    ensures Bounded(Run(s, es).sends)
    decreases |es|
  {
    if es != [] {
      StepKeepsBounds(s, es[0]);
      RunKeepsBounds(Step(s, es[0]), es[1..]);
    }
  }

  /**
   In every run, whatever settles late, is rejected by the mutex or belongs to a replaced socket: the slot
   counter is exactly the live socket's unsettled sends, never more than eight; and the timeout counter plus
   the sends not yet timed out never exceeds ten.
   */
  lemma InFlightIsExact(now: int, es: seq<Event>)
    ensures var b := Run(Boot(now), es).sends;
            && b.inFlight == |Unsettled(b)| && 0 <= b.inFlight <= MAX_IN_FLIGHT_SENDS
            && 0 <= b.consecutive <= b.consecutive + |Awaited(b)| <= 10
  {
    var b := Boot(now).sends;
    assert Unsettled(b) == {} && Awaited(b) == {};
    RunKeepsBounds(Boot(now), es);
  }

  /** A settlement or timeout of a send from a replaced socket moves neither counter and arms no key. */
  lemma ReplacedSocketIsSilent(s: State, e: Event)
    requires e.Succeed? || e.Expire? || e.Reject? || e.LateSettle?
    requires e.id in s.sends.all && s.sends.all[e.id].generation != s.sends.generation
    ensures var s' := Step(s, e);
            s'.sends.consecutive == s.sends.consecutive && s'.sends.inFlight == s.sends.inFlight && s'.watch == s.watch
  {
  }

  // ---- what moves the streak ----

  // A send that is settled or given up now, on the socket that is live now.
  predicate IsLiveSend(s: State, id: SendId, phase: Phase) {
    IsAt(s, id, phase) && s.sends.all[id].generation == s.sends.generation
  }

  // The keystore's error names a key whose stamps read as released.
  predicate NamesReleased(s: State, failure: Failure) {
    failure.MutexTimeout? && failure.key.Some? && AlreadyReleased(s.watch, failure.key.value)
  }

  // What ends the streak outright.
  predicate EndsStreak(s: State, e: Event) {
    match e
    case Succeed(id) => IsLiveSend(s, id, Waiting)
    case LateSettle(id, outcome) =>
      IsLiveSend(s, id, Abandoned) && !s.isDiscarded && (outcome.None? || NamesReleased(s, outcome.value))
    case Tx(token, key, phase) =>
      Some(token) == s.watch.currentTxToken && phase.Released? && s.watch.wedgedTxKey == Some(key)
    case NewSocket(_) => true
    case Opened => true
    case _ => false
  }

  /**
   The streak, by every event: a live send's timeout adds one, and so does a rejection by the mutex, after
   ending the streak if the key it names was released; a late ordinary failure takes exactly one off; a success
   in time or late, the armed key's release, an open and a new socket end it; everything else leaves it.
   */
  lemma StreakMovesSo(s: State, e: Event)
    requires s.sends.consecutive >= 0
    ensures Step(s, e).sends.consecutive ==
            if EndsStreak(s, e) then 0
            else if e.Expire? && IsLiveSend(s, e.id, Waiting) then s.sends.consecutive + 1
            else if e.Reject? && IsLiveSend(s, e.id, Waiting) && e.failure.MutexTimeout?
            then (if NamesReleased(s, e.failure) then 0 else s.sends.consecutive) + 1
            else if e.LateSettle? && IsLiveSend(s, e.id, Abandoned) && !s.isDiscarded && e.outcome == Some(Ordinary)
            then (if s.sends.consecutive > 0 then s.sends.consecutive - 1 else 0)
            else s.sends.consecutive
  {
  }

  /** An open breaker closes exactly when the streak ends, or at three by one late failure or a released key's error. */
  lemma BreakerClosesIff(s: State, e: Event)
    requires s.sends.consecutive >= SEND_STALL_THRESHOLD
    ensures Step(s, e).sends.consecutive < SEND_STALL_THRESHOLD <==>
            || EndsStreak(s, e)
            || (e.Reject? && IsLiveSend(s, e.id, Waiting) && NamesReleased(s, e.failure))
            || (e.LateSettle? && IsLiveSend(s, e.id, Abandoned) && !s.isDiscarded && e.outcome == Some(Ordinary)
                && s.sends.consecutive == SEND_STALL_THRESHOLD)
  {
    StreakMovesSo(s, e);
  }

  /** The wedged key: named by a live send's error it is armed unless released; a streak's end disarms it. */
  lemma WedgeMovesSo(s: State, e: Event)
    ensures var named := if e.Reject? && IsLiveSend(s, e.id, Waiting) then Some(e.failure)
                         else if e.LateSettle? && IsLiveSend(s, e.id, Abandoned) && !s.isDiscarded then e.outcome
                         else None;
            Step(s, e).watch.wedgedTxKey ==
            if EndsStreak(s, e) || (named.Some? && NamesReleased(s, named.value)) then None
            else if named.Some? && named.value.MutexTimeout? && named.value.key.Some? then named.value.key
            else if named == Some(Ordinary) && e.LateSettle? && s.sends.consecutive <= 1 then None
            else s.watch.wedgedTxKey
  {
  }

  /**
   A send is admitted exactly with fewer than eight in flight and fewer than three timeouts; a refusal is called a
   stall exactly on an open socket.
   */
  lemma AdmitsIff(s: State)
    ensures CanSend(s) == if s.sends.inFlight < 8 && s.sends.consecutive < 3 then Admitted
                          else if s.isOpen then SendStalled else NotConnected
  {
  }

  /** Whether the socket is open, the connection disowned and what time it is, by every event. */
  lemma FlagsMoveSo(s: State, e: Event)
    ensures Step(s, e).isOpen == (if e.Opened? then true else if e.Closed? then false else s.isOpen)
    ensures Step(s, e).isDiscarded == (s.isDiscarded || e.Discard?)
    ensures Step(s, e).watch.now == s.watch.now + if e.Tick? then e.ms else 0
  {
  }

  /** The keystore's reports are noted, with the present, while it is the current one's; a new socket starts afresh. */
  lemma ReportsAreNoted(s: State, e: Event)
    ensures Step(s, e).watch.log ==
            if e.NewSocket? then []
            else if e.Tx? && Some(e.token) == s.watch.currentTxToken && (e.phase.Released? || e.phase.TimedOut?)
            then s.watch.log + [TxNote(e.key, e.phase.Released?, s.watch.now)]
            else s.watch.log
    ensures Step(s, e).watch.currentTxToken == if e.NewSocket? then Some(e.token) else s.watch.currentTxToken
  {
  }

  // ---- ten is reached ----

  function Fill(from: SendId, n: nat): seq<Event>
    decreases n
  {
    if n == 0 then [] else [Attempt(from)] + Fill(from + 1, n - 1)
  }

  function ExpireAll(from: SendId, n: nat): seq<Event>
    decreases n
  {
    if n == 0 then [] else [Expire(from)] + ExpireAll(from + 1, n - 1)
  }

  lemma {:induction false} RunSplits(s: State, es: seq<Event>, fs: seq<Event>)
    ensures Run(s, es + fs) == Run(Run(s, es), fs)
    decreases |es|
  {
    if es == [] {
      assert es + fs == fs;
    } else {
      assert (es + fs)[1..] == es[1..] + fs;
      RunSplits(Step(s, es[0]), es[1..], fs);
    }
  }

  lemma {:induction false} FillAdmits(s: State, from: SendId, n: nat)
    requires 0 <= s.sends.consecutive < SEND_STALL_THRESHOLD && 0 <= s.sends.inFlight &&
             s.sends.inFlight + n <= MAX_IN_FLIGHT_SENDS
    requires forall id | id in s.sends.all :: id < from
    ensures var s' := Run(s, Fill(from, n));
            && s'.sends.inFlight == s.sends.inFlight + n && s'.sends.consecutive == s.sends.consecutive
            && s'.sends.generation == s.sends.generation
            && (forall id | id in s.sends.all :: id in s'.sends.all && s'.sends.all[id] == s.sends.all[id])
            && (forall id | from <= id < from + n ::
                  id in s'.sends.all && s'.sends.all[id] == Send(s.sends.generation, Waiting))
    decreases n
  {
    if n > 0 {
      var s1 := Step(s, Attempt(from));
      assert Fill(from, n)[1..] == Fill(from + 1, n - 1);
      FillAdmits(s1, from + 1, n - 1);
    }
  }

  lemma {:induction false} ExpireAllCounts(s: State, from: SendId, n: nat)
    requires forall id | from <= id < from + n ::
             id in s.sends.all && s.sends.all[id] == Send(s.sends.generation, Waiting)
    ensures Run(s, ExpireAll(from, n)).sends.consecutive == s.sends.consecutive + n
    decreases n
  {
    if n > 0 {
      assert ExpireAll(from, n)[1..] == ExpireAll(from + 1, n - 1);
      ExpireAllCounts(Step(s, Expire(from)), from + 1, n - 1);
    }
  }

  // Two sends the keystore's mutex refused at once: two on the counter, every slot free.
  function TwoRefusals(): seq<Event> {
    [Attempt(0), Reject(0, MutexTimeout(None)), Attempt(1), Reject(1, MutexTimeout(None))]
  }

  lemma TwoRefusalsCount(now: int)
    ensures var b := Run(Boot(now), TwoRefusals()).sends;
            b == Sends(2, 0, 0, map[0 := Send(0, Settled), 1 := Send(0, Settled)])
  {
  }

  lemma EveryoneExpires(s: State, from: SendId, n: nat)
    requires 0 <= s.sends.consecutive < SEND_STALL_THRESHOLD && 0 <= s.sends.inFlight &&
             s.sends.inFlight + n <= MAX_IN_FLIGHT_SENDS
    requires forall id | id in s.sends.all :: id < from
    ensures Run(s, Fill(from, n) + ExpireAll(from, n)).sends.consecutive == s.sends.consecutive + n
  {
    RunSplits(s, Fill(from, n), ExpireAll(from, n));
    FillAdmits(s, from, n);
    ExpireAllCounts(Run(s, Fill(from, n)), from, n);
  }

  /** The bound is tight: after two mutex refusals eight sends are still admitted, and all may expire. */
  lemma TenIsReached(now: int)
    ensures Run(Boot(now), TwoRefusals() + (Fill(2, 8) + ExpireAll(2, 8))).sends.consecutive == 10
  {
    TwoRefusalsCount(now);
    RunSplits(Boot(now), TwoRefusals(), Fill(2, 8) + ExpireAll(2, 8));
    EveryoneExpires(Run(Boot(now), TwoRefusals()), 2, 8);
  }

  // ---- the wedged key ----

  // What the keystore reported, in the order of the clock.
  ghost predicate LogOk(w: Watch) {
    && 0 < w.now
    && (forall i | 0 <= i < |w.log| :: 0 < w.log[i].at <= w.now)
    && (forall i, j | 0 <= i <= j < |w.log| :: w.log[i].at <= w.log[j].at)
  }

  // A stamp table holds, for each key, the stamp of its latest report of the one kind.
  ghost predicate TableOk(log: seq<TxNote>, table: map<Key, int>, released: bool) {
    && (forall k | k in table :: TxNote(k, released, table[k]) in log)
    && (forall i | 0 <= i < |log| && log[i].released == released ::
          log[i].key in table && log[i].at <= table[log[i].key])
  }

  ghost predicate StampsOk(w: Watch) {
    LogOk(w) && TableOk(w.log, w.txReleasedAt, true) && TableOk(w.log, w.txTimeoutAt, false)
  }

  ghost predicate ArmedOk(w: Watch) {
    w.wedgedTxKey.Some? ==> !AlreadyReleased(w, w.wedgedTxKey.value)
  }

  // A note goes on the end of the log, stamped with the present.
  lemma NoteKeepsTable(log: seq<TxNote>, table: map<Key, int>, released: bool, note: TxNote)
    requires TableOk(log, table, released) && (forall i | 0 <= i < |log| :: log[i].at <= note.at)
    ensures TableOk(log + [note], if note.released == released then table[note.key := note.at] else table, released)
  {
    var table' := if note.released == released then table[note.key := note.at] else table;
    assert note in log + [note];
    forall k | k in table'
      ensures TxNote(k, released, table'[k]) in log + [note]
    {
      assert k in table ==> TxNote(k, released, table[k]) in log;
    }
  }

  lemma NoteKeepsStamps(w: Watch, key: Key, released: bool)
    requires StampsOk(w)
    ensures StampsOk(Noted(w, key, released))
  {
    var note := TxNote(key, released, w.now);
    NoteKeepsTable(w.log, w.txReleasedAt, true, note);
    NoteKeepsTable(w.log, w.txTimeoutAt, false, note);
  }

  lemma TxKeepsStamps(s: State, token: Token, key: Key, phase: TxPhase)
    requires StampsOk(s.watch) && ArmedOk(s.watch)
    ensures StampsOk(TxStep(s, token, key, phase).watch) && ArmedOk(TxStep(s, token, key, phase).watch)
  {
    var noted := Noted(s.watch, key, phase.Released?);
    NoteKeepsStamps(s.watch, key, phase.Released?);
    ArmingKeepsStamps(noted, None);
    assert ArmedOk(noted) || noted.wedgedTxKey == Some(key);
    assert TxStep(s, token, key, phase).watch in {s.watch, noted, noted.(wedgedTxKey := None)};
  }

  // Which key is armed says nothing about the stamps.
  lemma ArmingKeepsStamps(w: Watch, key: Option<Key>)
    requires StampsOk(w)
    ensures StampsOk(w.(wedgedTxKey := key))
  {
  }

  lemma RejectArms(s: State, id: SendId, failure: Failure)
    requires id in s.sends.all && ArmedOk(s.watch)
    ensures var w' := RejectStep(s, id, failure).watch; w' == s.watch.(wedgedTxKey := w'.wedgedTxKey) && ArmedOk(w')
  {
  }

  lemma LateSettleArms(s: State, id: SendId, outcome: Option<Failure>)
    requires id in s.sends.all && ArmedOk(s.watch)
    ensures var w' := LateStep(s, id, outcome).watch; w' == s.watch.(wedgedTxKey := w'.wedgedTxKey) && ArmedOk(w')
  {
  }

  lemma SendEventArms(s: State, e: Event)
    requires ArmedOk(s.watch) && !e.Tx? && !e.NewSocket? && !e.Tick?
    ensures var w' := Step(s, e).watch; w' == s.watch.(wedgedTxKey := w'.wedgedTxKey) && ArmedOk(w')
  {
    if e.Reject? {
      if e.id in s.sends.all {
        RejectArms(s, e.id, e.failure);
      }
    } else if e.LateSettle? {
      if e.id in s.sends.all {
        LateSettleArms(s, e.id, e.outcome);
      }
    }
  }

  // The other steps touch the watch only by clearing it, arming it through the check, or letting time pass.
  lemma StepKeepsStamps(s: State, e: Event)
    requires StampsOk(s.watch) && ArmedOk(s.watch)
    ensures StampsOk(Step(s, e).watch) && ArmedOk(Step(s, e).watch)
  {
    if e.Tx? {
      TxKeepsStamps(s, e.token, e.key, e.phase);
    } else if !e.NewSocket? && !e.Tick? {
      SendEventArms(s, e);
      ArmingKeepsStamps(s.watch, Step(s, e).watch.wedgedTxKey);
    }
  }

  lemma {:induction false} RunKeepsStamps(s: State, es: seq<Event>)
    requires StampsOk(s.watch) && ArmedOk(s.watch)
    ensures StampsOk(Run(s, es).watch) && ArmedOk(Run(s, es).watch)
    decreases |es|
  {
    if es != [] {
      StepKeepsStamps(s, es[0]);
      RunKeepsStamps(Step(s, es[0]), es[1..]);
    }
  }

  /**
   No lost wake-up, for every order in which timeouts, releases and the errors they cause arrive: while a key
   is armed, each release of it the keystore has reported was followed by another timeout of it, so the
   release being waited for is still to come; and when it comes, it disarms the key and closes the breaker.
   */
  lemma NoLostWakeUp(now: int, es: seq<Event>, key: Key)
    requires now > 0 && Run(Boot(now), es).watch.wedgedTxKey == Some(key)
    ensures var w := Run(Boot(now), es).watch;
            forall i | 0 <= i < |w.log| && w.log[i].key == key && w.log[i].released ::
              exists j | i < j < |w.log| :: w.log[j].key == key && !w.log[j].released
    ensures var s := Run(Boot(now), es);
            s.watch.currentTxToken.Some? ==>
              var s' := Step(s, Tx(s.watch.currentTxToken.value, key, Released));
              s'.watch.wedgedTxKey == None && s'.sends.consecutive == 0
  {
    RunKeepsStamps(Boot(now), es);
    var w := Run(Boot(now), es).watch;
    forall i | 0 <= i < |w.log| && w.log[i].key == key && w.log[i].released
      ensures exists j | i < j < |w.log| :: w.log[j].key == key && !w.log[j].released
    {
      var note := TxNote(key, false, w.txTimeoutAt[key]);
      assert note in w.log;
      var j :| 0 <= j < |w.log| && w.log[j] == note;
      assert w.log[i].at < w.log[j].at;
    }
  }

  /** Events of a keystore whose socket was replaced change nothing at all. */
  lemma ReplacedKeystoreIsSilent(s: State, token: Token, key: Key, phase: TxPhase)
    requires Some(token) != s.watch.currentTxToken
    ensures Step(s, Tx(token, key, phase)) == s
  {
  }

  // What the keystore reported last of the key, and where.
  predicate IsLast(log: seq<TxNote>, key: Key, m: nat) {
    m < |log| && log[m].key == key && forall j | m < j < |log| :: log[j].key != key
  }

  ghost predicate ReleasedLast(log: seq<TxNote>, key: Key) {
    exists m: nat :: IsLast(log, key, m) && log[m].released
  }

  // The last report is a timeout that shares its millisecond with a release before it.
  ghost predicate TiedLast(log: seq<TxNote>, key: Key) {
    exists m: nat, i: nat :: IsLast(log, key, m) && !log[m].released && i < m && log[i] == TxNote(key, true, log[m].at)
  }

  lemma {:induction false} FindLast(log: seq<TxNote>, key: Key, from: nat) returns (m: nat)
    requires from < |log| && log[from].key == key
    ensures IsLast(log, key, m) && from <= m
    decreases |log| - from
  {
    if j :| from < j < |log| && log[j].key == key {
      m := FindLast(log, key, j);
    } else {
      m := from;
    }
  }

  lemma StampsSeeReleases(w: Watch, key: Key)
    requires StampsOk(w) && (ReleasedLast(w.log, key) || TiedLast(w.log, key))
    ensures AlreadyReleased(w, key)
  {
    var m: nat :| IsLast(w.log, key, m);
    var i: nat :| i <= m && w.log[i].key == key && w.log[i].released && w.log[i].at == w.log[m].at;
    if key in w.txTimeoutAt {
      var j :| 0 <= j < |w.log| && w.log[j] == TxNote(key, false, w.txTimeoutAt[key]);
      assert j <= m;
    }
  }

  lemma StampsSeeOnlyReleases(w: Watch, key: Key)
    requires StampsOk(w) && AlreadyReleased(w, key)
    ensures ReleasedLast(w.log, key) || TiedLast(w.log, key)
  {
    var i :| 0 <= i < |w.log| && w.log[i] == TxNote(key, true, w.txReleasedAt[key]);
    var m := FindLast(w.log, key, i);
    if !w.log[m].released {
      assert w.log[i] == TxNote(key, true, w.log[m].at);
    }
  }

  /**
   What an error naming a key does to the breaker, in every run: it is closed exactly when the keystore's last
   report of the key is a release, or a timeout that shares its millisecond with an earlier release; otherwise
   the key is armed.
   */
  lemma ClearsExactlyOnRelease(now: int, es: seq<Event>, key: Key)
    requires now > 0
    ensures var s := Run(Boot(now), es);
            NoteMutexWedge(s, Some(key)) ==
            if ReleasedLast(s.watch.log, key) || TiedLast(s.watch.log, key) then Clear(s)
            else s.(watch := s.watch.(wedgedTxKey := Some(key)))
  {
    RunKeepsStamps(Boot(now), es);
    var w := Run(Boot(now), es).watch;
    if AlreadyReleased(w, key) {
      StampsSeeOnlyReleases(w, key);
    } else if ReleasedLast(w.log, key) || TiedLast(w.log, key) {
      StampsSeeReleases(w, key);
    }
  }

  // No release of the key shares its millisecond with a later timeout of it.
  predicate NoTies(log: seq<TxNote>, key: Key) {
    forall i, j | 0 <= i < j < |log| && log[j] == TxNote(key, false, log[i].at) ::
      log[i] != TxNote(key, true, log[i].at)
  }

  /**
   So with no release and later timeout of a key in one millisecond, the stamps tell the order exactly, and the
   breaker is not closed on a key that is held.
   */
  lemma NoFalseClear(now: int, es: seq<Event>, key: Key)
    requires now > 0
    requires NoTies(Run(Boot(now), es).watch.log, key)
    ensures var w := Run(Boot(now), es).watch; AlreadyReleased(w, key) <==> ReleasedLast(w.log, key)
  {
    RunKeepsStamps(Boot(now), es);
    var w := Run(Boot(now), es).watch;
    forall m: nat, i: nat | IsLast(w.log, key, m) && !w.log[m].released && i < m
      ensures w.log[i] != TxNote(key, true, w.log[m].at)
    {
    }
    if AlreadyReleased(w, key) {
      StampsSeeOnlyReleases(w, key);
    } else if ReleasedLast(w.log, key) {
      StampsSeeReleases(w, key);
    }
  }

  lemma TieAtTheEnd(log: seq<TxNote>, key: Key, at: int)
    ensures TiedLast(log + [TxNote(key, true, at)] + [TxNote(key, false, at)], key)
  {
    var log' := log + [TxNote(key, true, at)] + [TxNote(key, false, at)];
    assert IsLast(log', key, |log| + 1) && log'[|log|] == TxNote(key, true, at);
  }

  /**
   The tie does happen: a release and then the timeout of the next waiter in the same millisecond look like a
   release that came last, and the breaker is closed on a key that is held.
   */
  lemma SameMillisecondFalseClear(s: State, id: SendId, token: Token, key: Key)
    requires s.watch.currentTxToken == Some(token) && s.watch.wedgedTxKey == None && s.watch.now > 0
    requires IsAt(s, id, Waiting) && IsCurrent(s, s.sends.all[id].generation)
    ensures var s1 := Step(Step(s, Tx(token, key, Released)), Tx(token, key, TimedOut));
            var s2 := Step(s1, Reject(id, MutexTimeout(Some(key))));
            && s1.watch.log == s.watch.log + [TxNote(key, true, s.watch.now), TxNote(key, false, s.watch.now)]
            && s2.watch.wedgedTxKey == None && s2.sends.consecutive == 1 && TiedLast(s1.watch.log, key)
  {
    TieAtTheEnd(s.watch.log, key, s.watch.now);
  }

  // ---- the connection itself ----

  /** The source's fields and methods; `all` and `log` only record what has happened. */
  class BaileysConnection {
    var consecutiveSendTimeouts: int
    var inFlightSends: int
    var socketGeneration: nat
    var wedgedTxKey: Option<Key>
    var txTimeoutAt: map<Key, int>
    var txReleasedAt: map<Key, int>
    var currentTxToken: Option<Token>
    var isOpen: bool
    var isDiscarded: bool
    var now: int
    var all: map<SendId, Send>
    var log: seq<TxNote>

    function Now(): State
      reads this
    {
      State(Sends(consecutiveSendTimeouts, inFlightSends, socketGeneration, all),
            Watch(wedgedTxKey, txTimeoutAt, txReleasedAt, currentTxToken, now, log), isOpen, isDiscarded)
    }

    constructor (at: int)
      ensures Now() == Boot(at)
    {
      consecutiveSendTimeouts, inFlightSends, socketGeneration := 0, 0, 0;
      wedgedTxKey, txTimeoutAt, txReleasedAt, currentTxToken := None, map[], map[], None;
      isOpen, isDiscarded, now, all, log := false, false, at, map[], [];
    }

    method AssertCanSend() returns (r: Admission)
      ensures r == CanSend(Now())
      ensures r == Admitted <==> inFlightSends < MAX_IN_FLIGHT_SENDS && consecutiveSendTimeouts < SEND_STALL_THRESHOLD
      ensures r == NotConnected ==> !isOpen
    {
      if inFlightSends >= MAX_IN_FLIGHT_SENDS {
        if !isOpen {
          return NotConnected;
        }
        return SendStalled;
      }
      if consecutiveSendTimeouts < SEND_STALL_THRESHOLD {
        return Admitted;
      }
      if !isOpen {
        return NotConnected;
      }
      r := SendStalled;
    }

    method ClearSendStallState()
      modifies this`consecutiveSendTimeouts, this`wedgedTxKey
      ensures Now() == Clear(old(Now()))
    {
      consecutiveSendTimeouts := 0;
      wedgedTxKey := None;
    }

    method ReleaseInFlight(generation: nat)
      modifies this`inFlightSends
      ensures Now() == Release(old(Now()), generation)
    {
      if generation == socketGeneration {
        inFlightSends := inFlightSends - 1;
      }
    }

    method NoteWedge(key: Option<Key>)
      modifies this`consecutiveSendTimeouts, this`wedgedTxKey
      ensures Now() == NoteMutexWedge(old(Now()), key)
    {
      if key.None? {
        return;
      }
      var releasedAt := if key.value in txReleasedAt then txReleasedAt[key.value] else 0;
      var timedOutAt := if key.value in txTimeoutAt then txTimeoutAt[key.value] else 0;
      if releasedAt >= timedOutAt && releasedAt > 0 {
        ClearSendStallState();
        return;
      }
      wedgedTxKey := key;
    }

    method RecordSendTimeout(generation: nat)
      modifies this`consecutiveSendTimeouts
      ensures Now() == RecordTimeout(old(Now()), generation)
    {
      if generation != socketGeneration {
        return;
      }
      consecutiveSendTimeouts := consecutiveSendTimeouts + 1;
    }

    // relayWithTimeout up to its await.
    method BeginSend(id: SendId) returns (r: Admission)
      requires id !in all
      modifies this
      ensures r == CanSend(old(Now())) && Now() == Step(old(Now()), Attempt(id))
    {
      r := AssertCanSend();
      if r.Admitted? {
        inFlightSends := inFlightSends + 1;
        all := all[id := Send(socketGeneration, Waiting)];
      }
    }

    method SendSucceeded(id: SendId)
      requires IsAt(Now(), id, Waiting)
      modifies this
      ensures Now() == Step(old(Now()), Succeed(id))
    {
      var generation := all[id].generation;
      all := all[id := all[id].(phase := Settled)];
      ReleaseInFlight(generation);
      if generation == socketGeneration {
        ClearSendStallState();
      }
    }

    // The slot stays with the operation.
    method SendExpired(id: SendId)
      requires IsAt(Now(), id, Waiting)
      modifies this
      ensures Now() == Step(old(Now()), Expire(id))
    {
      var generation := all[id].generation;
      all := all[id := all[id].(phase := Abandoned)];
      RecordSendTimeout(generation);
    }

    method SendRejected(id: SendId, failure: Failure)
      requires IsAt(Now(), id, Waiting)
      modifies this
      ensures Now() == Step(old(Now()), Reject(id, failure))
    {
      var generation := all[id].generation;
      all := all[id := all[id].(phase := Settled)];
      ReleaseInFlight(generation);
      if failure.MutexTimeout? && generation == socketGeneration {
        NoteWedge(failure.key);
        RecordSendTimeout(generation);
      }
    }

    method OnLateSettle(id: SendId, outcome: Option<Failure>)
      requires IsAt(Now(), id, Abandoned)
      modifies this
      ensures Now() == Step(old(Now()), LateSettle(id, outcome))
    {
      var generation := all[id].generation;
      all := all[id := all[id].(phase := Settled)];
      ReleaseInFlight(generation);
      if isDiscarded || generation != socketGeneration {
        return;
      }
      if outcome.Some? && outcome.value.MutexTimeout? {
        NoteWedge(outcome.value.key);
        return;
      }
      if outcome.None? {
        ClearSendStallState();
        return;
      }
      consecutiveSendTimeouts := if consecutiveSendTimeouts - 1 > 0 then consecutiveSendTimeouts - 1 else 0;
      if consecutiveSendTimeouts == 0 {
        ClearSendStallState();
      }
    }

    method HandleTxEvent(token: Token, key: Key, phase: TxPhase)
      modifies this
      ensures Now() == Step(old(Now()), Tx(token, key, phase))
    {
      if Some(token) != currentTxToken || phase.Acquired? {
        return;
      }
      if phase.Released? {
        txReleasedAt := txReleasedAt[key := now];
        log := log + [TxNote(key, true, now)];
        if wedgedTxKey == Some(key) {
          ClearSendStallState();
        }
        return;
      }
      if phase.TimedOut? {
        txTimeoutAt := txTimeoutAt[key := now];
        log := log + [TxNote(key, false, now)];
      }
    }

    method OnSocketCreated(token: Token)
      modifies this
      ensures Now() == Step(old(Now()), NewSocket(token))
    {
      currentTxToken := Some(token);
      socketGeneration := socketGeneration + 1;
      ClearSendStallState();
      inFlightSends := 0;
      txTimeoutAt, txReleasedAt, log := map[], map[], [];
    }
  }
}
