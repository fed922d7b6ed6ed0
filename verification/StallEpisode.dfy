/**
 The send-stall watchdog: the episode handler with all its exits, the restart request it queues at the
 connections handler, and the strike it leaves in the phone's backoff key. Several connections of the phone
 follow one another; their episodes, sends, sockets and logouts interleave at every await.
 */
module StallEpisode {
  import opened Wrappers
  import Store = SendStallStore

  type StallState = Store.StallState

  const SEND_STALL_THRESHOLD := 3
  const SEND_STALL_MIN_DURATION_MS := 90 * 1000
  const COOLDOWN_MS := 30 * 1000

  type ConnId = nat
  type EpisodeId = nat

  datatype Silence = Until(at: int) | Forever

  datatype Conn = Conn(
    isOpen: bool,
    isDiscarded: bool,
    sessionEnded: bool,
    closing: bool,                     // close() has not deleted the backoff key yet
    generation: nat,
    consecutive: nat,
    streakStartedAt: Option<int>,
    silentUntil: Silence,
    restartRequested: bool,
    rollback: Option<Strike>           // stallStrikeRollback
  )

  // What a strike replaced and what it wrote.
  datatype Strike = Strike(previous: Option<StallState>, wrote: StallState)

  datatype Undo = Nothing | ClearKey | Restore(strike: Strike)
  datatype Then = Finish | Abort

  datatype Pc =
    | Lookup                           // canRestart and the lease are being read
    | NextAllowed                      // nextRestartAllowedAt is being read
    | Recording(struck: Option<Strike>)
    | RollingBack(undo: Undo, next: Then)
    | Requested                        // connect() with `stillOurs` waits for the phone's slot
    | Done

  datatype Episode = Episode(conn: ConnId, generation: nat, pc: Pc)

  // Who is in the phone's slot: the spawn of a connection up to its socket, or a logout up to its end.
  datatype Holder = SpawnOf(conn: ConnId) | LogoutOf(conn: ConnId)

  datatype State = State(
    restartEnabled: bool,
    now: int,
    conns: map<ConnId, Conn>,
    registered: Option<ConnId>,
    slot: Option<Holder>,
    episodes: map<EpisodeId, Episode>,
    key: Option<StallState>,
    ledger: Option<StallState>,        // what the key should be: bumped by a rebuild, emptied by a session's end
    found: nat,                        // strikes the session began with
    rebuilt: nat                       // restarts carried out since then
  )

  datatype Lookup = LookupFailed | LookedUp(mayRestart: bool, ownedElsewhere: bool, slotFree: bool)
  datatype NextRead = NextFailed | NextIs(allowedAt: Option<int>)

  datatype Event =
    | Launch(e: EpisodeId, c: ConnId)
    | LookupDone(e: EpisodeId, reply: Lookup)
    | NextDone(e: EpisodeId, next: NextRead)
    | StrikeLands(e: EpisodeId, clock: int)
    | Recorded(e: EpisodeId, ownedElsewhere: bool, spawned: ConnId)
    | RecordFails(e: EpisodeId)
    | UndoLands(e: EpisodeId)
    | UndoFails(e: EpisodeId)
    | Resume(e: EpisodeId)
    | SlotDrained(e: EpisodeId, spawned: ConnId)
    | SendTimesOut(c: ConnId)
    | SendFailsLate(c: ConnId)
    | Recovered(c: ConnId)
    | Opened(c: ConnId)
    | SocketClosed(c: ConnId)
    | SocketReplaced(c: ConnId)
    | SessionEnds(c: ConnId, inSlot: bool)
    | KeyDeleted(c: ConnId)
    | Unregistered(c: ConnId)
    | Replaced(spawned: ConnId)
    | Dropped
    | SlotFreed
    | Tick(ms: nat)

  function NewConn(): Conn {
    Conn(false, false, false, false, 0, 0, None, Until(0), false, None)
  }

  function Clear(v: Conn): Conn {
    v.(consecutive := 0, streakStartedAt := None, silentUntil := Until(0), restartRequested := false)
  }

  function Discarded(v: Conn): Conn {
    v.(isDiscarded := true, isOpen := false)
  }

  // isStallEpisodeCurrent
  predicate IsCurrent(v: Conn, generation: nat) {
    v.isOpen && !v.isDiscarded && v.generation == generation && v.consecutive >= SEND_STALL_THRESHOLD
  }

  predicate Reportable(v: Conn, now: int) {
    && v.silentUntil.Until? && v.silentUntil.at <= now
    && v.streakStartedAt.Some? && v.consecutive >= SEND_STALL_THRESHOLD
    && now - v.streakStartedAt.value >= SEND_STALL_MIN_DURATION_MS
    && v.isOpen && !v.isDiscarded && !v.restartRequested
  }

  function SetConn(s: State, c: ConnId, v: Conn): State {
    s.(conns := s.conns[c := v])
  }

  // A handler's move: its own place, and the fields of its connection.
  function Move(s: State, e: EpisodeId, pc: Pc, v: Conn): State
    requires e in s.episodes
  {
    s.(episodes := s.episodes[e := s.episodes[e].(pc := pc)], conns := s.conns[s.episodes[e].conn := v])
  }

  function Evict(s: State, c: ConnId): State {
    if s.registered == Some(c) then s.(registered := None) else s
  }

  // Both error paths: a cooldown if the episode still is the live one.
  function Rearmed(v: Conn, generation: nat, now: int): Conn {
    v.(silentUntil := if IsCurrent(v, generation) then Until(now + COOLDOWN_MS) else Until(0))
  }

  function LaunchStep(s: State, e: EpisodeId, c: ConnId): State
    requires c in s.conns
  {
    var v := s.conns[c].(silentUntil := Forever);
    SetConn(s, c, v).(episodes := s.episodes[e := Episode(c, v.generation, if s.restartEnabled then Lookup else Done)])
  }

  function LookupStep(s: State, e: EpisodeId, v: Conn, reply: Lookup): State
    requires e in s.episodes
  {
    var ep := s.episodes[e];
    if reply.LookupFailed? then Move(s, e, Done, Rearmed(v, ep.generation, s.now))
    else if !IsCurrent(v, ep.generation) then Move(s, e, Done, v.(silentUntil := Until(0)))
    else if reply.ownedElsewhere then Evict(Move(s, e, Done, Discarded(v)), ep.conn)
    else if !reply.mayRestart then Move(s, e, NextAllowed, v)
    else if !reply.slotFree then Move(s, e, Done, v.(silentUntil := Until(0)))
    else Move(s, e, Recording(None), v.(restartRequested := true))
  }

  function NextStep(s: State, e: EpisodeId, v: Conn, next: NextRead): State
    requires e in s.episodes
  {
    var generation := s.episodes[e].generation;
    if next.NextFailed? then Move(s, e, Done, Rearmed(v, generation, s.now))
    else if !IsCurrent(v, generation) then Move(s, e, Done, v.(silentUntil := Until(0)))
    else Move(s, e, Done, v.(silentUntil := Until(if next.allowedAt.Some? then next.allowedAt.value else 0)))
  }

  function StrikeStep(s: State, e: EpisodeId, clock: int): State
    requires e in s.episodes
  {
    var wrote := Store.Struck(s.key, clock);
    s.(episodes := s.episodes[e := s.episodes[e].(pc := Recording(Some(Strike(s.key, wrote))))], key := Some(wrote))
  }

  // rollBackStallStrike up to its await.
  function RollBack(s: State, e: EpisodeId, v: Conn, next: Then): State
    requires e in s.episodes
  {
    var undo := if v.rollback.None? then Nothing else if v.sessionEnded then ClearKey else Restore(v.rollback.value);
    Move(s, e, RollingBack(undo, next), v.(rollback := None))
  }

  function RecordedMove(s: State, e: EpisodeId, v: Conn, strike: Strike, ownedElsewhere: bool): State
    requires e in s.episodes
  {
    var v1 := v.(rollback := Some(strike));
    if v.sessionEnded then Move(s, e, RollingBack(ClearKey, Finish), v.(rollback := None))
    else if v.isDiscarded then RollBack(s, e, v1, Finish)
    else if ownedElsewhere then RollBack(s, e, v1, Abort)
    else if !v.restartRequested then RollBack(s, e, v1, Finish)
    else Move(s, e, Requested, v1)
  }

  // requestRestart runs on into connect(), which stops only if the phone's slot is taken.
  function RecordedStep(s: State, e: EpisodeId, v: Conn, strike: Strike, ownedElsewhere: bool, spawned: ConnId): State
    requires e in s.episodes
  {
    var s1 := RecordedMove(s, e, v, strike, ownedElsewhere);
    if s1.episodes[e].pc.Requested? && s.slot.None? then SlotStep(s1, e, s1.conns[s.episodes[e].conn], spawned) else s1
  }

  function RecordFailsStep(s: State, e: EpisodeId, v: Conn): State
    requires e in s.episodes
  {
    Move(s, e, Done, Rearmed(v.(restartRequested := false), s.episodes[e].generation, s.now))
  }

  // restoreState: only while the key is still exactly what the strike wrote.
  function Restored(key: Option<StallState>, strike: Strike): Option<StallState> {
    if key == Some(strike.wrote) then strike.previous else key
  }

  function Undone(key: Option<StallState>, undo: Undo): Option<StallState> {
    match undo
    case Nothing => key
    case ClearKey => None
    case Restore(strike) => Restored(key, strike)
  }

  function ResumeStep(s: State, e: EpisodeId, v: Conn, next: Then): State
    requires e in s.episodes
  {
    if next.Finish? then Move(s, e, Done, v) else Evict(Move(s, e, Done, Discarded(v)), s.episodes[e].conn)
  }

  function Spawned(s: State, spawned: ConnId): State {
    SetConn(s, spawned, NewConn()).(registered := Some(spawned), slot := Some(SpawnOf(spawned)))
  }

  // connect() past the drain: rebuild, or the veto and what withdrawStallRestart does before its await.
  function SlotStep(s: State, e: EpisodeId, v: Conn, spawned: ConnId): State
    requires e in s.episodes
  {
    var c := s.episodes[e].conn;
    if s.registered == Some(c) && v.restartRequested then
      var s1 := Spawned(Move(s, e, Done, Discarded(v)), spawned);
      if v.sessionEnded then s1 else s1.(ledger := s.key, rebuilt := s.rebuilt + 1)
    else RollBack(s, e, v.(restartRequested := false), Finish)
  }

  predicate At(s: State, e: EpisodeId) {
    e in s.episodes && s.episodes[e].conn in s.conns
  }

  function ConnEvent(v: Conn, e: Event, now: int): Conn {
    match e
    case SendTimesOut(_) =>
      v.(consecutive := v.consecutive + 1,
         streakStartedAt := if v.streakStartedAt.None? then Some(now) else v.streakStartedAt)
    case SendFailsLate(_) => if v.consecutive > 1 then v.(consecutive := v.consecutive - 1) else Clear(v)
    case Recovered(_) => Clear(v)
    case Opened(_) => if v.isDiscarded then v else Clear(v.(isOpen := true))
    case SocketClosed(_) => v.(isOpen := false)
    case SocketReplaced(_) => if v.isDiscarded then v else Clear(v.(generation := v.generation + 1))
    case _ => v
  }

  function HandlerStep(s: State, e: EpisodeId, ev: Event): State
    requires At(s, e)
  {
    var v, pc := s.conns[s.episodes[e].conn], s.episodes[e].pc;
    match ev
    case LookupDone(_, reply) => if pc.Lookup? then LookupStep(s, e, v, reply) else s
    case NextDone(_, next) => if pc.NextAllowed? then NextStep(s, e, v, next) else s
    case StrikeLands(_, clock) => if pc.Recording? && pc.struck.None? then StrikeStep(s, e, clock) else s
    case Recorded(_, elsewhere, spawned) =>
      if pc.Recording? && pc.struck.Some? && spawned !in s.conns
      then RecordedStep(s, e, v, pc.struck.value, elsewhere, spawned) else s
    case RecordFails(_) => if pc.Recording? then RecordFailsStep(s, e, v) else s
    case UndoLands(_) =>
      if pc.RollingBack? then Move(s, e, pc.(undo := Nothing), v).(key := Undone(s.key, pc.undo)) else s
    case UndoFails(_) => if pc.RollingBack? then Move(s, e, pc.(undo := Nothing), v) else s
    case Resume(_) => if pc.RollingBack? && pc.undo.Nothing? then ResumeStep(s, e, v, pc.next) else s
    case SlotDrained(_, spawned) =>
      if pc.Requested? && s.slot.None? && spawned !in s.conns then SlotStep(s, e, v, spawned) else s
    case _ => s
  }

  // logout() in the phone's slot, or a remote `loggedOut` outside it, up to the deletion of the key.
  function SessionEndsStep(s: State, c: ConnId, inSlot: bool): State
    requires c in s.conns
  {
    SetConn(s, c, s.conns[c].(sessionEnded := true, isDiscarded := true, closing := true))
      .(ledger := None, found := 0, rebuilt := 0, slot := if inSlot then Some(LogoutOf(c)) else s.slot)
  }

  // A logout gives the slot back when its close has ended, and takes the registry entry with it.
  function SlotFreedStep(s: State): State {
    match s.slot
    case None => s
    case Some(SpawnOf(_)) => s.(slot := None)
    case Some(LogoutOf(c)) =>
      if c in s.conns && s.conns[c].isDiscarded && !s.conns[c].closing then Evict(s, c).(slot := None) else s
  }

  function Step(s: State, ev: Event): State {
    match ev
    case Launch(e, c) =>
      if e !in s.episodes && c in s.conns && Reportable(s.conns[c], s.now) then LaunchStep(s, e, c) else s
    case SessionEnds(c, inSlot) =>
      if c in s.conns && !s.conns[c].isDiscarded && (inSlot ==> s.slot.None? && s.registered == Some(c))
      then SessionEndsStep(s, c, inSlot) else s
    case KeyDeleted(c) =>
      if c in s.conns && s.conns[c].closing
      then SetConn(s, c, s.conns[c].(closing := false)).(key := None) else s
    case Unregistered(c) => if c in s.conns && s.conns[c].isDiscarded then Evict(s, c) else s
    case Replaced(spawned) =>
      if spawned in s.conns || s.slot.Some? then s else Spawned(DropRegistered(s), spawned)
    case Dropped => if s.slot.Some? then s else DropRegistered(s).(registered := None)
    case SlotFreed => SlotFreedStep(s)
    case Tick(ms) => s.(now := s.now + ms)
    case SendTimesOut(c) => if c in s.conns then SetConn(s, c, ConnEvent(s.conns[c], ev, s.now)) else s
    case SendFailsLate(c) => if c in s.conns then SetConn(s, c, ConnEvent(s.conns[c], ev, s.now)) else s
    case Recovered(c) => if c in s.conns then SetConn(s, c, ConnEvent(s.conns[c], ev, s.now)) else s
    // The socket's first event comes only after connect() has returned and the slot was given back.
    case Opened(c) =>
      if c in s.conns && s.slot != Some(SpawnOf(c)) then SetConn(s, c, ConnEvent(s.conns[c], ev, s.now)) else s
    case SocketClosed(c) => if c in s.conns then SetConn(s, c, ConnEvent(s.conns[c], ev, s.now)) else s
    case SocketReplaced(c) => if c in s.conns then SetConn(s, c, ConnEvent(s.conns[c], ev, s.now)) else s
    case _ => if At(s, ev.e) then HandlerStep(s, ev.e, ev) else s
  }

  // A forced restart, an import or a coordinator's discard takes the registered connection away.
  function DropRegistered(s: State): State {
    if s.registered.Some? && s.registered.value in s.conns
    then SetConn(s, s.registered.value, Discarded(s.conns[s.registered.value])) else s
  }

  function Run(s: State, es: seq<Event>): State
    decreases |es|
  {
    if es == [] then s else Run(Step(s, es[0]), es[1..])
  }

  // ---- the watchdog is never muted for good ----

  // Who will still lift a connection's silence: a handler that has not given its verdict, one about to abort,
  // or a restart under way.
  predicate Owns(v: Conn, pc: Pc) {
    || pc.Lookup? || pc.NextAllowed? || (pc.RollingBack? && pc.next.Abort?)
    || (v.restartRequested && (pc.Recording? || pc.Requested?))
  }

  predicate Muted(v: Conn) {
    v.silentUntil.Forever? && !v.isDiscarded
  }

  ghost predicate Owned(s: State, c: ConnId)
    requires c in s.conns
  {
    exists e :: e in s.episodes && s.episodes[e].conn == c && Owns(s.conns[c], s.episodes[e].pc)
  }

  ghost predicate NeverOrphaned(s: State) {
    && s.restartEnabled
    && (forall c | c in s.conns && Muted(s.conns[c]) :: Owned(s, c))
    && (forall c | c in s.conns && !s.conns[c].isDiscarded :: s.registered == Some(c))
    && (s.registered.Some? ==> s.registered.value in s.conns)
    && (forall c | c in s.conns && s.conns[c].sessionEnded :: s.conns[c].isDiscarded)
  }

  // A connection changes: if it is still muted it was before, and with the same restart pending.
  lemma ConnKeepsOwners(s: State, c: ConnId, v: Conn)
    requires NeverOrphaned(s) && c in s.conns && (s.conns[c].isDiscarded || v.sessionEnded ==> v.isDiscarded)
    requires Muted(v) ==> Muted(s.conns[c]) && v.restartRequested == s.conns[c].restartRequested
    ensures NeverOrphaned(SetConn(s, c, v))
  {
  }

  // A handler moves: it still owns the silence, or has lifted it, or never was the one that owned it.
  lemma MoveKeepsOwners(s: State, e: EpisodeId, pc: Pc, v: Conn)
    requires NeverOrphaned(s) && At(s, e) &&
             (s.conns[s.episodes[e].conn].isDiscarded || v.sessionEnded ==> v.isDiscarded)
    requires var was := s.conns[s.episodes[e].conn];
             Muted(v) ==> Owns(v, pc)
                          || (Muted(was) && v.restartRequested == was.restartRequested && !Owns(was, s.episodes[e].pc))
    ensures NeverOrphaned(Move(s, e, pc, v))
  {
    var s' := Move(s, e, pc, v);
    var c := s.episodes[e].conn;
    forall d | d in s'.conns && Muted(s'.conns[d])
      ensures Owned(s', d)
    {
      if d == c && Owns(v, pc) {
        assert s'.episodes[e].conn == d && Owns(s'.conns[d], s'.episodes[e].pc);
      } else {
        var o :| o in s.episodes && s.episodes[o].conn == d && Owns(s.conns[d], s.episodes[o].pc);
        assert o != e || d != c;
        assert s'.episodes[o].conn == d && Owns(s'.conns[d], s'.episodes[o].pc);
      }
    }
  }

  // The registry, the key and the clock are nobody's owner.
  lemma OwnersElsewhere(s: State, s': State)
    requires NeverOrphaned(s) && s'.conns == s.conns && s'.episodes == s.episodes && s'.restartEnabled
    requires forall c | c in s.conns && !s.conns[c].isDiscarded :: s'.registered == Some(c)
    requires s'.registered.Some? ==> s'.registered.value in s'.conns
    ensures NeverOrphaned(s')
  {
  }

  // After one connection is disowned and the registry points at a new one.
  lemma SpawnKeepsOwners(s: State, spawned: ConnId)
    requires NeverOrphaned(s) && spawned !in s.conns && (forall c | c in s.conns :: s.conns[c].isDiscarded)
    ensures NeverOrphaned(Spawned(s, spawned))
  {
  }

  lemma DropKeepsOwners(s: State)
    requires NeverOrphaned(s)
    ensures NeverOrphaned(DropRegistered(s)) &&
            (forall c | c in DropRegistered(s).conns :: DropRegistered(s).conns[c].isDiscarded)
  {
  }

  lemma LaunchKeepsOwners(s: State, e: EpisodeId, c: ConnId)
    requires NeverOrphaned(s) && e !in s.episodes && c in s.conns && Reportable(s.conns[c], s.now)
    ensures NeverOrphaned(LaunchStep(s, e, c))
  {
    var s' := LaunchStep(s, e, c);
    assert s'.episodes[e].conn == c && Owns(s'.conns[c], s'.episodes[e].pc);
  }

  // abort(): the handler ends with its connection disowned and out of the registry.
  lemma AbortKeepsOwners(s: State, e: EpisodeId, v: Conn)
    requires NeverOrphaned(s) && At(s, e)
    ensures NeverOrphaned(Evict(Move(s, e, Done, Discarded(v)), s.episodes[e].conn))
  {
    MoveKeepsOwners(s, e, Done, Discarded(v));
    var s1 := Move(s, e, Done, Discarded(v));
    OwnersElsewhere(s1, Evict(s1, s.episodes[e].conn));
  }

  lemma LookupKeepsOwners(s: State, e: EpisodeId, reply: Lookup)
    requires NeverOrphaned(s) && At(s, e) && s.episodes[e].pc.Lookup?
    ensures NeverOrphaned(LookupStep(s, e, s.conns[s.episodes[e].conn], reply))
  {
    var v, generation := s.conns[s.episodes[e].conn], s.episodes[e].generation;
    if reply.LookupFailed? {
      MoveKeepsOwners(s, e, Done, Rearmed(v, generation, s.now));
    } else if !IsCurrent(v, generation) || (!reply.ownedElsewhere && reply.mayRestart && !reply.slotFree) {
      MoveKeepsOwners(s, e, Done, v.(silentUntil := Until(0)));
    } else if reply.ownedElsewhere {
      AbortKeepsOwners(s, e, v);
    } else if !reply.mayRestart {
      MoveKeepsOwners(s, e, NextAllowed, v);
    } else {
      MoveKeepsOwners(s, e, Recording(None), v.(restartRequested := true));
    }
  }

  lemma NextKeepsOwners(s: State, e: EpisodeId, next: NextRead)
    requires NeverOrphaned(s) && At(s, e) && s.episodes[e].pc.NextAllowed?
    ensures NeverOrphaned(NextStep(s, e, s.conns[s.episodes[e].conn], next))
  {
    var v := s.conns[s.episodes[e].conn];
    var v' := NextStep(s, e, v, next).conns[s.episodes[e].conn];
    MoveKeepsOwners(s, e, Done, v');
  }

  lemma StrikeKeepsOwners(s: State, e: EpisodeId, clock: int)
    requires NeverOrphaned(s) && At(s, e) && s.episodes[e].pc == Recording(None)
    ensures NeverOrphaned(StrikeStep(s, e, clock))
  {
    var s' := StrikeStep(s, e, clock);
    var v, pc := s.conns[s.episodes[e].conn], s'.episodes[e].pc;
    if Muted(v) && !v.restartRequested {
      assert !Owns(v, s.episodes[e].pc);
    }
    MoveKeepsOwners(s, e, pc, v);
    assert Move(s, e, pc, v).conns == s.conns;
    OwnersElsewhere(Move(s, e, pc, v), s');
  }

  lemma RecordedKeepsOwners(s: State, e: EpisodeId, strike: Strike, elsewhere: bool, spawned: ConnId)
    requires NeverOrphaned(s) && At(s, e) && s.episodes[e].pc.Recording? && spawned !in s.conns
    ensures NeverOrphaned(RecordedStep(s, e, s.conns[s.episodes[e].conn], strike, elsewhere, spawned))
  {
    var v := s.conns[s.episodes[e].conn];
    var s1 := RecordedMove(s, e, v, strike, elsewhere);
    MoveKeepsOwners(s, e, s1.episodes[e].pc, s1.conns[s.episodes[e].conn]);
    if s1.episodes[e].pc.Requested? {
      SlotKeepsOwners(s1, e, spawned);
    }
  }

  lemma RecordFailsKeepsOwners(s: State, e: EpisodeId)
    requires NeverOrphaned(s) && At(s, e) && s.episodes[e].pc.Recording?
    ensures NeverOrphaned(RecordFailsStep(s, e, s.conns[s.episodes[e].conn]))
  {
    var v := s.conns[s.episodes[e].conn];
    MoveKeepsOwners(s, e, Done, Rearmed(v.(restartRequested := false), s.episodes[e].generation, s.now));
  }

  lemma ResumeKeepsOwners(s: State, e: EpisodeId, undo: Undo)
    requires NeverOrphaned(s) && At(s, e) && s.episodes[e].pc.RollingBack?
    ensures NeverOrphaned(ResumeStep(s, e, s.conns[s.episodes[e].conn], s.episodes[e].pc.next))
    ensures NeverOrphaned(Move(s, e, s.episodes[e].pc.(undo := undo), s.conns[s.episodes[e].conn]))
  {
    var v, next := s.conns[s.episodes[e].conn], s.episodes[e].pc.next;
    MoveKeepsOwners(s, e, s.episodes[e].pc.(undo := undo), v);
    if next.Finish? {
      MoveKeepsOwners(s, e, Done, v);
    } else {
      AbortKeepsOwners(s, e, v);
    }
  }

  lemma SlotKeepsOwners(s: State, e: EpisodeId, spawned: ConnId)
    requires NeverOrphaned(s) && At(s, e) && s.episodes[e].pc.Requested? && spawned !in s.conns
    ensures NeverOrphaned(SlotStep(s, e, s.conns[s.episodes[e].conn], spawned))
  {
    var c := s.episodes[e].conn;
    var v := s.conns[c];
    var s' := SlotStep(s, e, v, spawned);
    if s.registered == Some(c) && v.restartRequested {
      MoveKeepsOwners(s, e, Done, Discarded(v));
      var s1 := Move(s, e, Done, Discarded(v));
      SpawnKeepsOwners(s1, spawned);
      OwnersElsewhere(Spawned(s1, spawned), s');
    } else {
      MoveKeepsOwners(s, e, s'.episodes[e].pc, s'.conns[c]);
    }
  }

  lemma HandlerKeepsOwners(s: State, e: EpisodeId, ev: Event)
    requires NeverOrphaned(s) && At(s, e)
    ensures NeverOrphaned(HandlerStep(s, e, ev))
  {
    var pc := s.episodes[e].pc;
    match ev {
      case LookupDone(_, reply) => if pc.Lookup? { LookupKeepsOwners(s, e, reply); }
      case NextDone(_, next) => if pc.NextAllowed? { NextKeepsOwners(s, e, next); }
      case StrikeLands(_, clock) => if pc == Recording(None) { StrikeKeepsOwners(s, e, clock); }
      case Recorded(_, elsewhere, spawned) =>
        if pc.Recording? && pc.struck.Some? && spawned !in s.conns {
          RecordedKeepsOwners(s, e, pc.struck.value, elsewhere, spawned);
        }
      case RecordFails(_) => if pc.Recording? { RecordFailsKeepsOwners(s, e); }
      case UndoLands(_) =>
        if pc.RollingBack? {
          ResumeKeepsOwners(s, e, Nothing);
          OwnersElsewhere(Move(s, e, pc.(undo := Nothing), s.conns[s.episodes[e].conn]), HandlerStep(s, e, ev));
        }
      case UndoFails(_) => if pc.RollingBack? { ResumeKeepsOwners(s, e, Nothing); }
      case Resume(_) => if pc.RollingBack? { ResumeKeepsOwners(s, e, Nothing); }
      case SlotDrained(_, spawned) => if pc.Requested? && spawned !in s.conns { SlotKeepsOwners(s, e, spawned); }
      case Launch(_, _) => case SendTimesOut(_) => case SendFailsLate(_) => case Recovered(_) => case Opened(_) =>
      case SocketClosed(_) => case SocketReplaced(_) => case SessionEnds(_, _) =>
      case KeyDeleted(_) => case Unregistered(_) => case Replaced(_) => case Dropped =>
      case SlotFreed => case Tick(_) =>
    }
  }

  lemma SessionEventKeepsOwners(s: State, ev: Event)
    requires NeverOrphaned(s) && (ev.SessionEnds? || ev.KeyDeleted? || ev.Unregistered?)
    ensures NeverOrphaned(Step(s, ev))
  {
  }

  predicate IsConnEvent(ev: Event) {
    ev.SendTimesOut? || ev.SendFailsLate? || ev.Recovered? || ev.Opened? || ev.SocketClosed? || ev.SocketReplaced?
  }

  predicate IsHandlerEvent(ev: Event) {
    || ev.LookupDone? || ev.NextDone? || ev.StrikeLands? || ev.Recorded? || ev.RecordFails?
    || ev.UndoLands? || ev.UndoFails? || ev.Resume? || ev.SlotDrained?
  }

  lemma ConnEventIsSetConn(s: State, ev: Event)
    requires IsConnEvent(ev) && ev.c in s.conns
    ensures Step(s, ev) == SetConn(s, ev.c, ConnEvent(s.conns[ev.c], ev, s.now)) || Step(s, ev) == s
    ensures !ev.Opened? || s.slot != Some(SpawnOf(ev.c)) ==>
              Step(s, ev) == SetConn(s, ev.c, ConnEvent(s.conns[ev.c], ev, s.now))
  {
  }

  lemma HandlerEventIsHandlerStep(s: State, ev: Event)
    requires IsHandlerEvent(ev)
    ensures Step(s, ev) == if At(s, ev.e) then HandlerStep(s, ev.e, ev) else s
  {
  }

  lemma RegistryEventKeepsOwners(s: State, ev: Event)
    requires NeverOrphaned(s) && (ev.Replaced? || ev.Dropped?)
    ensures NeverOrphaned(Step(s, ev))
  {
    DropKeepsOwners(s);
    if s.slot.None? {
      if ev.Dropped? {
        OwnersElsewhere(DropRegistered(s), Step(s, ev));
      } else if ev.spawned !in s.conns {
        SpawnKeepsOwners(DropRegistered(s), ev.spawned);
      }
    }
  }

  lemma IdleEventKeepsOwners(s: State, ev: Event)
    requires NeverOrphaned(s) && (ev.SlotFreed? || ev.Tick?)
    ensures NeverOrphaned(Step(s, ev))
  {
    OwnersElsewhere(s, Step(s, ev));
  }

  lemma StepKeepsOwners(s: State, ev: Event)
    requires NeverOrphaned(s)
    ensures NeverOrphaned(Step(s, ev))
  {
    if IsHandlerEvent(ev) {
      HandlerEventIsHandlerStep(s, ev);
      if At(s, ev.e) {
        HandlerKeepsOwners(s, ev.e, ev);
      }
    } else if IsConnEvent(ev) {
      if ev.c in s.conns {
        ConnEventIsSetConn(s, ev);
        ConnKeepsOwners(s, ev.c, ConnEvent(s.conns[ev.c], ev, s.now));
      }
    } else if ev.Launch? {
      if ev.e !in s.episodes && ev.c in s.conns && Reportable(s.conns[ev.c], s.now) {
        LaunchKeepsOwners(s, ev.e, ev.c);
      }
    } else if ev.SlotFreed? || ev.Tick? {
      IdleEventKeepsOwners(s, ev);
    } else if ev.Replaced? || ev.Dropped? {
      RegistryEventKeepsOwners(s, ev);
    } else {
      SessionEventKeepsOwners(s, ev);
    }
  }

  lemma {:induction false} RunKeepsOwners(s: State, es: seq<Event>)
    requires NeverOrphaned(s)
    ensures NeverOrphaned(Run(s, es))
    decreases |es|
  {
    if es != [] {
      StepKeepsOwners(s, es[0]);
      RunKeepsOwners(Step(s, es[0]), es[1..]);
    }
  }

  function Boot(restartEnabled: bool, now: int, key: Option<StallState>): State {
    State(restartEnabled, now, map[], None, None, map[], key, key, Store.Restarts(key), 0)
  }

  /**
   With restarts enabled, whatever stalls, recovers, closes, fails in Redis or overlaps: on a live connection an
   infinite silence always belongs to an unfinished handler or a restart request still to be answered. So once
   every episode is over, each live connection can be reported again at some finite time.
   */
  lemma NeverMutedForGood(now: int, key: Option<StallState>, es: seq<Event>)
    ensures var s := Run(Boot(true, now, key), es);
            && (forall c | c in s.conns && Muted(s.conns[c]) ::
                  exists e :: e in s.episodes && s.episodes[e].conn == c && Owns(s.conns[c], s.episodes[e].pc))
            && ((forall e | e in s.episodes :: s.episodes[e].pc.Done?) ==>
                  forall c | c in s.conns && !s.conns[c].isDiscarded :: s.conns[c].silentUntil.Until?)
  {
    RunKeepsOwners(Boot(true, now, key), es);
    var s := Run(Boot(true, now, key), es);
    forall c | c in s.conns && Muted(s.conns[c])
      ensures exists e :: e in s.episodes && s.episodes[e].conn == c && Owns(s.conns[c], s.episodes[e].pc)
    {
      assert Owned(s, c);
    }
  }

  /** With restarts off a single report silences the socket until something clears the stall. */
  lemma DisabledStaysMuted(s: State, e: EpisodeId, c: ConnId)
    requires !s.restartEnabled && e !in s.episodes && c in s.conns && Reportable(s.conns[c], s.now)
    ensures var s' := Step(s, Launch(e, c)); Muted(s'.conns[c]) && s'.episodes[e].pc == Done
  {
  }

  // ---- what the handler decides ----

  // Everything but the connections, the registration and the episodes.
  predicate OnlyInMemory(s: State, s': State) {
    && s'.key == s.key && s'.ledger == s.ledger && s'.found == s.found && s'.rebuilt == s.rebuilt
    && s'.now == s.now && s'.slot == s.slot
  }

  // A stall that is still the one reported: same socket, still open and live, still deep enough.
  predicate StillStalls(v: Conn, generation: nat) {
    v.isOpen && !v.isDiscarded && v.generation == generation && v.consecutive >= 3
  }

  /**
   The first verdict. A restart is asked for exactly when the reads succeeded, the stall is still the one reported,
   the lease is not owned elsewhere, the backoff allows it and the process has a restart to spare; the backoff's
   end is read exactly when it does not allow it; and a lease owned elsewhere disowns the connection. A failed
   read re-arms on a cooldown, and a stale episode or one without a restart to spare lifts its silence.
   */
  lemma LookupVerdict(s: State, e: EpisodeId, reply: Lookup)
    requires At(s, e) && s.episodes[e].pc.Lookup?
    ensures var s', c := Step(s, LookupDone(e, reply)), s.episodes[e].conn;
            var v := s.conns[c];
            var stalls := StillStalls(v, s.episodes[e].generation);
            var asks := reply.LookedUp? && stalls && !reply.ownedElsewhere && reply.mayRestart && reply.slotFree;
            var waits := reply.LookedUp? && stalls && !reply.ownedElsewhere && !reply.mayRestart;
            var yielded := reply.LookedUp? && stalls && reply.ownedElsewhere;
            var silence := if asks || waits || yielded then v.silentUntil
                           else if reply.LookupFailed? && stalls then Until(s.now + 30000) else Until(0);
            && s'.episodes == s.episodes[e := s.episodes[e].(pc := if asks then Recording(None)
                                                                   else if waits then NextAllowed else Done)]
            && s'.conns == s.conns[c := v.(restartRequested := v.restartRequested || asks, silentUntil := silence,
                                           isDiscarded := v.isDiscarded || yielded, isOpen := v.isOpen && !yielded)]
            && s'.registered == (if yielded && s.registered == Some(c) then None else s.registered)
            && OnlyInMemory(s, s')
  {
    HandlerEventIsHandlerStep(s, LookupDone(e, reply));
  }

  /**
   The second verdict: the silence lasts until the backoff's end that was read, or a cooldown after a failed read,
   or is lifted for a stale episode or a history that is gone. The episode is over, and nothing was written.
   */
  lemma NextVerdict(s: State, e: EpisodeId, next: NextRead)
    requires At(s, e) && s.episodes[e].pc.NextAllowed?
    ensures var s', c := Step(s, NextDone(e, next)), s.episodes[e].conn;
            var stalls := StillStalls(s.conns[c], s.episodes[e].generation);
            var until := if !stalls then 0 else if next.NextFailed? then s.now + 30000
                         else if next.allowedAt.Some? then next.allowedAt.value else 0;
            && s'.episodes == s.episodes[e := s.episodes[e].(pc := Done)]
            && s'.conns == s.conns[c := s.conns[c].(silentUntil := Until(until))]
            && s'.registered == s.registered && OnlyInMemory(s, s')
  {
    HandlerEventIsHandlerStep(s, NextDone(e, next));
  }

  /**
   A report is launched exactly on an open live socket with no request pending, three timeouts deep, a minute and a
   half into its streak, and past its silence.
   */
  lemma LaunchesIff(s: State, e: EpisodeId, c: ConnId)
    requires e !in s.episodes && c in s.conns
    ensures var s', v := Step(s, Launch(e, c)), s.conns[c];
            var launches := v.isOpen && !v.isDiscarded && !v.restartRequested && v.consecutive >= 3
                            && v.streakStartedAt.Some? && s.now - v.streakStartedAt.value >= 90000
                            && v.silentUntil.Until? && v.silentUntil.at <= s.now;
            s' == if !launches then s
                  else s.(conns := s.conns[c := v.(silentUntil := Forever)],
                          episodes := s.episodes[e := Episode(c, v.generation,
                                                              if s.restartEnabled then Lookup else Done)])
  {
  }

  // The restart is not asked for again by an episode past its first verdict.
  predicate IsPastAsking(pc: Pc) {
    pc.NextAllowed? || pc.Done?
  }

  lemma PastAskingWritesNothing(s: State, e: EpisodeId, ev: Event)
    requires e in s.episodes && IsPastAsking(s.episodes[e].pc)
    ensures e in Step(s, ev).episodes && IsPastAsking(Step(s, ev).episodes[e].pc)
    ensures IsHandlerEvent(ev) && ev.e == e ==>
              && OnlyInMemory(s, Step(s, ev)) && Step(s, ev).registered == s.registered
              && Step(s, ev).conns.Keys == s.conns.Keys
  {
    if IsHandlerEvent(ev) {
      HandlerEventIsHandlerStep(s, ev);
      if At(s, ev.e) {
        HandlersMoveTheirOwn(s, ev.e, ev);
        if ev.e == e {
          PastAskingOnlyReads(s, e, ev);
        }
      }
    } else if IsConnEvent(ev) {
      if ev.c in s.conns {
        ConnEventIsSetConn(s, ev);
      }
    } else {
      OthersMoveNoEpisode(s, ev);
    }
  }

  lemma HandlersMoveTheirOwn(s: State, e: EpisodeId, ev: Event)
    requires At(s, e) && IsHandlerEvent(ev)
    ensures forall o | o in s.episodes && o != e :: o in HandlerStep(s, e, ev).episodes
                                                    && HandlerStep(s, e, ev).episodes[o] == s.episodes[o]
    ensures e in HandlerStep(s, e, ev).episodes
  {
  }

  lemma PastAskingOnlyReads(s: State, e: EpisodeId, ev: Event)
    requires At(s, e) && IsPastAsking(s.episodes[e].pc) && IsHandlerEvent(ev) && ev.e == e
    ensures var s' := HandlerStep(s, e, ev);
            && e in s'.episodes && IsPastAsking(s'.episodes[e].pc) && OnlyInMemory(s, s')
            && s'.registered == s.registered && s'.conns.Keys == s.conns.Keys
  {
  }

  lemma OthersMoveNoEpisode(s: State, ev: Event)
    requires !IsHandlerEvent(ev) && !IsConnEvent(ev)
    ensures forall o | o in s.episodes :: o in Step(s, ev).episodes && Step(s, ev).episodes[o] == s.episodes[o]
  {
  }

  // None of the run's steps of this episode writes the key, counts a restart, or touches what is registered.
  ghost predicate WritesNothing(s: State, es: seq<Event>, e: EpisodeId)
    decreases |es|
  {
    es == [] ||
    ((IsHandlerEvent(es[0]) && es[0].e == e ==>
        OnlyInMemory(s, Step(s, es[0])) && Step(s, es[0]).registered == s.registered)
     && WritesNothing(Step(s, es[0]), es[1..], e))
  }

  /** An episode whose lookup said no, through any run: it never strikes, never rebuilds and never asks again. */
  lemma {:induction false} BackoffIsHonoured(s: State, es: seq<Event>, e: EpisodeId)
    requires e in s.episodes && IsPastAsking(s.episodes[e].pc)
    ensures WritesNothing(s, es, e)
    ensures e in Run(s, es).episodes && IsPastAsking(Run(s, es).episodes[e].pc)
    decreases |es|
  {
    if es != [] {
      PastAskingWritesNothing(s, e, es[0]);
      BackoffIsHonoured(Step(s, es[0]), es[1..], e);
    }
  }

  // Something clears the connection's stall.
  predicate ClearsStall(s: State, ev: Event, c: ConnId) {
    || ((ev.Recovered? || ev.Opened? || ev.SocketReplaced?) && ev.c == c)
    || (ev.SendFailsLate? && ev.c == c && c in s.conns && s.conns[c].consecutive <= 1)
  }

  predicate NeverCleared(s: State, es: seq<Event>, c: ConnId)
    decreases |es|
  {
    es == [] || (!ClearsStall(s, es[0], c) && NeverCleared(Step(s, es[0]), es[1..], c))
  }

  // Nobody is at work on the connection, and it is silent until `at`.
  ghost predicate IsSilenced(s: State, c: ConnId, at: int) {
    && c in s.conns && s.conns[c].silentUntil == Until(at)
    && (forall e | e in s.episodes && s.episodes[e].conn == c :: s.episodes[e].pc.Done?)
  }

  lemma HandlerKeepsSilence(s: State, ev: Event, c: ConnId, at: int)
    requires IsSilenced(s, c, at) && IsHandlerEvent(ev) && At(s, ev.e)
    ensures IsSilenced(HandlerStep(s, ev.e, ev), c, at) && HandlerStep(s, ev.e, ev).now == s.now
  {
    if s.episodes[ev.e].conn == c {
      assert HandlerStep(s, ev.e, ev) == s;
    } else {
      HandlersSpareOtherConns(s, ev.e, ev, c);
    }
  }

  // The handler of another connection leaves this one alone, and stays its own.
  ghost predicate Spares(s: State, s': State, e: EpisodeId, c: ConnId)
    requires c in s.conns && e in s.episodes
  {
    && c in s'.conns && s'.conns[c] == s.conns[c] && s'.now == s.now && e in s'.episodes
    && s'.episodes == s.episodes[e := s'.episodes[e]] && s'.episodes[e].conn == s.episodes[e].conn
  }

  lemma SlotSparesOtherConns(s: State, e: EpisodeId, v: Conn, spawned: ConnId, c: ConnId)
    requires At(s, e) && c in s.conns && s.episodes[e].conn != c && spawned !in s.conns
    ensures Spares(s, SlotStep(s, e, v, spawned), e, c)
  {
  }

  lemma RecordedSparesOtherConns(s: State, e: EpisodeId, strike: Strike, elsewhere: bool, spawned: ConnId, c: ConnId)
    requires At(s, e) && c in s.conns && s.episodes[e].conn != c && spawned !in s.conns
    ensures Spares(s, RecordedStep(s, e, s.conns[s.episodes[e].conn], strike, elsewhere, spawned), e, c)
  {
    var s1 := RecordedMove(s, e, s.conns[s.episodes[e].conn], strike, elsewhere);
    assert Spares(s, s1, e, c) && At(s1, e) && spawned !in s1.conns;
    SlotSparesOtherConns(s1, e, s1.conns[s.episodes[e].conn], spawned, c);
  }

  lemma RebuildSparesOtherConns(s: State, e: EpisodeId, ev: Event, c: ConnId)
    requires At(s, e) && (ev.Recorded? || ev.SlotDrained?) && c in s.conns && s.episodes[e].conn != c
    ensures Spares(s, HandlerStep(s, e, ev), e, c)
  {
    assert s.episodes == s.episodes[e := s.episodes[e]];
    var pc := s.episodes[e].pc;
    if ev.spawned !in s.conns {
      SlotSparesOtherConns(s, e, s.conns[s.episodes[e].conn], ev.spawned, c);
      if ev.Recorded? && pc.Recording? && pc.struck.Some? {
        RecordedSparesOtherConns(s, e, pc.struck.value, ev.ownedElsewhere, ev.spawned, c);
      }
    }
  }

  lemma ReadsSpareOtherConns(s: State, e: EpisodeId, ev: Event, c: ConnId)
    requires At(s, e) && (ev.LookupDone? || ev.NextDone? || ev.RecordFails?) && c in s.conns && s.episodes[e].conn != c
    ensures Spares(s, HandlerStep(s, e, ev), e, c)
  {
    assert s.episodes == s.episodes[e := s.episodes[e]];
  }

  lemma WritesSpareOtherConns(s: State, e: EpisodeId, ev: Event, c: ConnId)
    requires At(s, e) && IsHandlerEvent(ev) && c in s.conns && s.episodes[e].conn != c
    requires !ev.Recorded? && !ev.SlotDrained? && !ev.LookupDone? && !ev.NextDone? && !ev.RecordFails?
    ensures Spares(s, HandlerStep(s, e, ev), e, c)
  {
    assert s.episodes == s.episodes[e := s.episodes[e]];
  }

  lemma HandlersSpareOtherConns(s: State, e: EpisodeId, ev: Event, c: ConnId)
    requires At(s, e) && IsHandlerEvent(ev) && c in s.conns && s.episodes[e].conn != c
    ensures Spares(s, HandlerStep(s, e, ev), e, c)
  {
    if ev.Recorded? || ev.SlotDrained? {
      RebuildSparesOtherConns(s, e, ev, c);
    } else if ev.LookupDone? || ev.NextDone? || ev.RecordFails? {
      ReadsSpareOtherConns(s, e, ev, c);
    } else {
      WritesSpareOtherConns(s, e, ev, c);
    }
  }

  lemma StepKeepsSilence(s: State, ev: Event, c: ConnId, at: int)
    requires IsSilenced(s, c, at) && s.now < at && !ClearsStall(s, ev, c)
    ensures IsSilenced(Step(s, ev), c, at) && s.now <= Step(s, ev).now
  {
    if IsHandlerEvent(ev) {
      HandlerEventIsHandlerStep(s, ev);
      if At(s, ev.e) {
        HandlerKeepsSilence(s, ev, c, at);
      }
    } else if IsConnEvent(ev) {
      if ev.c in s.conns {
        ConnEventIsSetConn(s, ev);
      }
    } else if ev.Launch? {
      LaunchKeepsSilence(s, ev, c, at);
    } else {
      OthersKeepSilence(s, ev, c, at);
    }
  }

  lemma LaunchKeepsSilence(s: State, ev: Event, c: ConnId, at: int)
    requires IsSilenced(s, c, at) && s.now < at && ev.Launch?
    ensures IsSilenced(Step(s, ev), c, at) && Step(s, ev).now == s.now
  {
  }

  lemma OthersKeepSilence(s: State, ev: Event, c: ConnId, at: int)
    requires IsSilenced(s, c, at) && !IsHandlerEvent(ev) && !IsConnEvent(ev) && !ev.Launch?
    ensures IsSilenced(Step(s, ev), c, at) && s.now <= Step(s, ev).now
  {
    OthersMoveNoEpisode(s, ev);
  }

  lemma {:induction false} TimeGoesOn(s: State, es: seq<Event>)
    ensures s.now <= Run(s, es).now
    decreases |es|
  {
    if es != [] {
      StepTakesTime(s, es[0]);
      TimeGoesOn(Step(s, es[0]), es[1..]);
    }
  }

  lemma StepTakesTime(s: State, ev: Event)
    ensures s.now <= Step(s, ev).now
  {
    if IsHandlerEvent(ev) {
      HandlerEventIsHandlerStep(s, ev);
      if At(s, ev.e) {
        HandlersTakeNoTime(s, ev.e, ev);
      }
    }
  }

  lemma HandlersTakeNoTime(s: State, e: EpisodeId, ev: Event)
    requires At(s, e)
    ensures HandlerStep(s, e, ev).now == s.now
  {
  }

  /**
   So the silence a verdict puts on a connection is kept: through any run that does not clear the stall, whatever
   its sends do, it is not reported again before the time named.
   */
  lemma {:induction false} SilenceIsKept(s: State, es: seq<Event>, c: ConnId, at: int)
    requires IsSilenced(s, c, at) && NeverCleared(s, es, c) && Run(s, es).now < at
    ensures c in Run(s, es).conns && Run(s, es).conns[c].silentUntil == Until(at)
    ensures forall e :: e !in Run(s, es).episodes ==> Step(Run(s, es), Launch(e, c)) == Run(s, es)
    decreases |es|
  {
    TimeGoesOn(s, es);
    if es != [] {
      StepKeepsSilence(s, es[0], c, at);
      SilenceIsKept(Step(s, es[0]), es[1..], c, at);
    }
  }

  /** In particular a second stall within the backoff: until its end nothing of the connection is reported again. */
  lemma BackoffSilences(s: State, e: EpisodeId, at: int, es: seq<Event>)
    requires At(s, e) && s.episodes[e].pc.NextAllowed?
    requires StillStalls(s.conns[s.episodes[e].conn], s.episodes[e].generation)
    requires forall o | o in s.episodes && o != e && s.episodes[o].conn == s.episodes[e].conn :: s.episodes[o].pc.Done?
    requires NeverCleared(Step(s, NextDone(e, NextIs(Some(at)))), es, s.episodes[e].conn)
    requires Run(Step(s, NextDone(e, NextIs(Some(at)))), es).now < at
    ensures var s' := Run(Step(s, NextDone(e, NextIs(Some(at)))), es);
            forall o :: o !in s'.episodes ==> Step(s', Launch(o, s.episodes[e].conn)) == s'
  {
    NextVerdict(s, e, NextIs(Some(at)));
    SilenceIsKept(Step(s, NextDone(e, NextIs(Some(at)))), es, s.episodes[e].conn, at);
  }

  // ---- what happens to a connection from outside ----

  // A stall forgotten: no streak, no silence, no request.
  function Cleared(v: Conn): Conn {
    v.(consecutive := 0, streakStartedAt := None, silentUntil := Until(0), restartRequested := false)
  }

  /**
   A timeout deepens the streak and starts its clock; a late failure takes one off and, at the last, clears the
   stall, as a recovery, an opening and a new socket do; a close leaves the streak.
   */
  lemma ConnEventsSo(s: State, c: ConnId)
    requires c in s.conns
    ensures var v := s.conns[c];
            && Step(s, SendTimesOut(c)) ==
               SetConn(s, c, v.(consecutive := v.consecutive + 1,
                                streakStartedAt := if v.streakStartedAt.None? then Some(s.now) else v.streakStartedAt))
            && Step(s, SendFailsLate(c)) ==
               SetConn(s, c, if v.consecutive > 1 then v.(consecutive := v.consecutive - 1) else Cleared(v))
            && Step(s, Recovered(c)) == SetConn(s, c, Cleared(v))
            && Step(s, SocketClosed(c)) == SetConn(s, c, v.(isOpen := false))
            && Step(s, SocketReplaced(c)) ==
               SetConn(s, c, if v.isDiscarded then v else Cleared(v.(generation := v.generation + 1)))
    ensures s.slot != Some(SpawnOf(c)) ==>
              Step(s, Opened(c)) ==
              SetConn(s, c, if s.conns[c].isDiscarded then s.conns[c] else Cleared(s.conns[c].(isOpen := true)))
    ensures s.slot == Some(SpawnOf(c)) ==> Step(s, Opened(c)) == s
  {
  }

  /**
   A session ends once, disowning its connection and beginning a new account; then its close deletes the key, once;
   and the disowned connection's entry goes.
   */
  lemma SessionEndsSo(s: State, c: ConnId, inSlot: bool)
    requires c in s.conns
    ensures var v := s.conns[c];
            && Step(s, SessionEnds(c, inSlot)) ==
               (if v.isDiscarded || (inSlot && (s.slot.Some? || s.registered != Some(c))) then s
                else s.(conns := s.conns[c := v.(sessionEnded := true, isDiscarded := true, closing := true)],
                        ledger := None, found := 0, rebuilt := 0,
                        slot := if inSlot then Some(LogoutOf(c)) else s.slot))
            && Step(s, KeyDeleted(c)) ==
               (if v.closing then s.(conns := s.conns[c := v.(closing := false)], key := None) else s)
            && Step(s, Unregistered(c)) ==
               (if v.isDiscarded && s.registered == Some(c) then s.(registered := None) else s)
  {
  }

  /** The slot is given back by a spawn at once, and by a logout once its close has ended, with its entry. */
  lemma SlotIsFreedSo(s: State)
    ensures s.slot == None ==> Step(s, SlotFreed) == s
    ensures s.slot.Some? && s.slot.value.SpawnOf? ==> Step(s, SlotFreed) == s.(slot := None)
    ensures s.slot.Some? && s.slot.value.LogoutOf? ==>
              var c := s.slot.value.conn;
              Step(s, SlotFreed) ==
              if c in s.conns && s.conns[c].isDiscarded && !s.conns[c].closing
              then s.(slot := None, registered := if s.registered == Some(c) then None else s.registered) else s
  {
  }

  /** With the slot free a replacement disowns what is registered and takes its place; a discard only disowns it. */
  lemma ReplacesSo(s: State, spawned: ConnId)
    requires spawned !in s.conns && (s.registered.Some? ==> s.registered.value in s.conns)
    ensures var rest := if s.registered.None? then s.conns
                        else s.conns[s.registered.value := s.conns[s.registered.value].(isDiscarded := true,
                                                                                        isOpen := false)];
            && Step(s, Replaced(spawned)) ==
               (if s.slot.Some? then s
                else s.(conns := rest[spawned := NewConn()], registered := Some(spawned),
                        slot := Some(SpawnOf(spawned))))
            && Step(s, Dropped) == (if s.slot.Some? then s else s.(conns := rest, registered := None))
    ensures NewConn() == Conn(false, false, false, false, 0, 0, None, Until(0), false, None)
  {
  }

  // ---- a restart asked for is carried out at once ----

  // Nobody is in the slot while a connection that has been open lives: its spawn is over, and a logout, a
  // replacement or a discard disowns the registered connection on the way in.
  ghost predicate SlotsOk(s: State) {
    && (forall e | e in s.episodes :: s.episodes[e].conn in s.conns && !s.episodes[e].pc.Requested?)
    && (forall c | c in s.conns && !s.conns[c].isDiscarded :: s.registered == Some(c))
    && (forall c | c in s.conns && s.conns[c].sessionEnded :: s.conns[c].isDiscarded)
    && (s.registered.Some? ==> s.registered.value in s.conns)
    && (s.slot.Some? ==>
          match s.slot.value
          case SpawnOf(c) =>
            && c in s.conns && !s.conns[c].isOpen && (forall e | e in s.episodes :: s.episodes[e].conn != c)
            && (forall d | d in s.conns && !s.conns[d].isDiscarded :: d == c)
          case LogoutOf(c) => forall d | d in s.conns :: s.conns[d].isDiscarded)
  }

  // A handler's move to anything but a request, on a connection that is not disowned less than before.
  lemma MoveKeepsSlots(s: State, e: EpisodeId, pc: Pc, v: Conn)
    requires SlotsOk(s) && At(s, e) && !pc.Requested?
    requires var was := s.conns[s.episodes[e].conn];
             v.sessionEnded == was.sessionEnded && v.isDiscarded == was.isDiscarded && (v.isOpen ==> was.isOpen)
    ensures SlotsOk(Move(s, e, pc, v))
  {
  }

  lemma DisownKeepsSlots(s: State, c: ConnId)
    requires SlotsOk(s) && c in s.conns
    ensures SlotsOk(SetConn(s, c, Discarded(s.conns[c])))
    ensures SlotsOk(Evict(SetConn(s, c, Discarded(s.conns[c])), c))
  {
  }

  lemma SpawnKeepsSlots(s: State, spawned: ConnId)
    requires SlotsOk(s) && spawned !in s.conns && (forall c | c in s.conns :: s.conns[c].isDiscarded)
    ensures SlotsOk(Spawned(s, spawned))
  {
  }

  lemma LookupKeepsSlots(s: State, e: EpisodeId, reply: Lookup)
    requires SlotsOk(s) && At(s, e)
    ensures SlotsOk(LookupStep(s, e, s.conns[s.episodes[e].conn], reply))
  {
    var c, generation := s.episodes[e].conn, s.episodes[e].generation;
    var v := s.conns[c];
    if reply.LookupFailed? {
      MoveKeepsSlots(s, e, Done, Rearmed(v, generation, s.now));
    } else if !IsCurrent(v, generation) || (!reply.ownedElsewhere && reply.mayRestart && !reply.slotFree) {
      MoveKeepsSlots(s, e, Done, v.(silentUntil := Until(0)));
    } else if reply.ownedElsewhere {
      MoveKeepsSlots(s, e, Done, v);
      DisownKeepsSlots(Move(s, e, Done, v), c);
      assert s.conns[c := v][c := Discarded(v)] == s.conns[c := Discarded(v)];
    } else if !reply.mayRestart {
      MoveKeepsSlots(s, e, NextAllowed, v);
    } else {
      MoveKeepsSlots(s, e, Recording(None), v.(restartRequested := true));
    }
  }

  lemma ResumeKeepsSlots(s: State, e: EpisodeId, next: Then)
    requires SlotsOk(s) && At(s, e)
    ensures SlotsOk(ResumeStep(s, e, s.conns[s.episodes[e].conn], next))
  {
    var c := s.episodes[e].conn;
    var v := s.conns[c];
    MoveKeepsSlots(s, e, Done, v);
    DisownKeepsSlots(Move(s, e, Done, v), c);
    assert s.conns[c := v][c := Discarded(v)] == s.conns[c := Discarded(v)];
  }

  // The commitment to a restart: what the handler asks of its connection when the strike is in.
  predicate Commits(v: Conn, elsewhere: bool) {
    !v.sessionEnded && !v.isDiscarded && !elsewhere && v.restartRequested
  }

  lemma CommitIsImmediate(s: State, e: EpisodeId, strike: Strike, spawned: ConnId)
    requires SlotsOk(s) && At(s, e) && spawned !in s.conns && Commits(s.conns[s.episodes[e].conn], false)
    ensures var v := s.conns[s.episodes[e].conn];
            && s.slot.None?
            && RecordedStep(s, e, v, strike, false, spawned)
            == Spawned(Move(s, e, Done, Discarded(v.(rollback := Some(strike)))), spawned)
                 .(ledger := s.key, rebuilt := s.rebuilt + 1)
  {
    var c := s.episodes[e].conn;
    var v1 := s.conns[c].(rollback := Some(strike));
    assert s.registered == Some(c);
    var s1 := Move(s, e, Requested, v1);
    assert Move(s1, e, Done, Discarded(v1)).episodes == Move(s, e, Done, Discarded(v1)).episodes;
    assert Move(s1, e, Done, Discarded(v1)).conns == Move(s, e, Done, Discarded(v1)).conns;
  }

  lemma RecordedKeepsSlots(s: State, e: EpisodeId, strike: Strike, elsewhere: bool, spawned: ConnId)
    requires SlotsOk(s) && At(s, e) && spawned !in s.conns
    ensures SlotsOk(RecordedStep(s, e, s.conns[s.episodes[e].conn], strike, elsewhere, spawned))
  {
    var c := s.episodes[e].conn;
    var v := s.conns[c];
    if Commits(v, elsewhere) {
      CommitIsImmediate(s, e, strike, spawned);
      var v1 := v.(rollback := Some(strike));
      MoveKeepsSlots(s, e, Done, v1);
      DisownKeepsSlots(Move(s, e, Done, v1), c);
      assert s.conns[c := v1][c := Discarded(v1)] == s.conns[c := Discarded(v1)];
      var s1 := Move(s, e, Done, Discarded(v1));
      SpawnKeepsSlots(s1, spawned);
    } else {
      var s' := RecordedMove(s, e, v, strike, elsewhere);
      MoveKeepsSlots(s, e, s'.episodes[e].pc, s'.conns[c]);
    }
  }

  lemma NextKeepsSlots(s: State, e: EpisodeId, next: NextRead)
    requires SlotsOk(s) && At(s, e)
    ensures SlotsOk(NextStep(s, e, s.conns[s.episodes[e].conn], next))
  {
    var s' := NextStep(s, e, s.conns[s.episodes[e].conn], next);
    MoveKeepsSlots(s, e, Done, s'.conns[s.episodes[e].conn]);
  }

  lemma StrikeKeepsSlots(s: State, e: EpisodeId, clock: int)
    requires SlotsOk(s) && At(s, e)
    ensures SlotsOk(StrikeStep(s, e, clock))
  {
  }

  lemma UndoKeepsSlots(s: State, e: EpisodeId, ev: Event)
    requires SlotsOk(s) && At(s, e) && (ev.UndoLands? || ev.UndoFails? || ev.RecordFails?)
    ensures SlotsOk(HandlerStep(s, e, ev))
  {
    var pc, v := s.episodes[e].pc, s.conns[s.episodes[e].conn];
    if ev.RecordFails? && pc.Recording? {
      MoveKeepsSlots(s, e, Done, Rearmed(v.(restartRequested := false), s.episodes[e].generation, s.now));
    } else if pc.RollingBack? {
      MoveKeepsSlots(s, e, pc.(undo := Nothing), v);
    }
  }

  lemma HandlerKeepsSlots(s: State, e: EpisodeId, ev: Event)
    requires SlotsOk(s) && At(s, e)
    ensures SlotsOk(HandlerStep(s, e, ev))
  {
    var pc := s.episodes[e].pc;
    if ev.LookupDone? {
      LookupKeepsSlots(s, e, ev.reply);
    } else if ev.NextDone? {
      NextKeepsSlots(s, e, ev.next);
    } else if ev.StrikeLands? {
      StrikeKeepsSlots(s, e, ev.clock);
    } else if ev.Recorded? {
      if pc.Recording? && pc.struck.Some? && ev.spawned !in s.conns {
        RecordedKeepsSlots(s, e, pc.struck.value, ev.ownedElsewhere, ev.spawned);
      }
    } else if ev.UndoLands? || ev.UndoFails? || ev.RecordFails? {
      UndoKeepsSlots(s, e, ev);
    } else if ev.Resume? && pc.RollingBack? {
      ResumeKeepsSlots(s, e, pc.next);
    }
  }

  // A connection's fields change, but neither its session nor whether it is disowned; it opens only off the slot.
  lemma ConnKeepsSlots(s: State, c: ConnId, v: Conn)
    requires SlotsOk(s) && c in s.conns
    requires v.sessionEnded == s.conns[c].sessionEnded && v.isDiscarded == s.conns[c].isDiscarded
    requires v.isOpen ==> s.conns[c].isOpen || s.slot != Some(SpawnOf(c))
    ensures SlotsOk(SetConn(s, c, v))
  {
  }

  lemma ConnEventKeepsSlots(s: State, ev: Event)
    requires SlotsOk(s) && IsConnEvent(ev)
    ensures SlotsOk(Step(s, ev))
  {
    if ev.c in s.conns {
      ConnEventIsSetConn(s, ev);
      ConnEventSpares(s.conns[ev.c], ev, s.now);
      if Step(s, ev) != s {
        ConnKeepsSlots(s, ev.c, ConnEvent(s.conns[ev.c], ev, s.now));
      }
    }
  }

  lemma LaunchKeepsSlots(s: State, e: EpisodeId, c: ConnId)
    requires SlotsOk(s) && e !in s.episodes && c in s.conns && Reportable(s.conns[c], s.now)
    ensures SlotsOk(LaunchStep(s, e, c))
  {
    ConnKeepsSlots(s, c, s.conns[c].(silentUntil := Forever));
  }

  lemma SessionEndsKeepsSlots(s: State, c: ConnId, inSlot: bool)
    requires SlotsOk(s) && c in s.conns && !s.conns[c].isDiscarded && (inSlot ==> s.slot.None?)
    ensures SlotsOk(SessionEndsStep(s, c, inSlot))
  {
  }

  lemma KeyDeletedKeepsSlots(s: State, c: ConnId)
    requires SlotsOk(s)
    ensures SlotsOk(Step(s, KeyDeleted(c)))
  {
    if c in s.conns {
      ConnKeepsSlots(s, c, s.conns[c].(closing := false));
    }
  }

  lemma UnregisteredKeepsSlots(s: State, ev: Event)
    requires SlotsOk(s) && (ev.Unregistered? || ev.SlotFreed?)
    ensures SlotsOk(Step(s, ev))
  {
  }

  lemma SessionEventKeepsSlots(s: State, ev: Event)
    requires SlotsOk(s) && (ev.SessionEnds? || ev.KeyDeleted? || ev.Unregistered? || ev.SlotFreed? || ev.Launch?)
    ensures SlotsOk(Step(s, ev))
  {
    if ev.Launch? {
      if ev.e !in s.episodes && ev.c in s.conns && Reportable(s.conns[ev.c], s.now) {
        LaunchKeepsSlots(s, ev.e, ev.c);
      }
    } else if ev.SessionEnds? {
      if ev.c in s.conns && !s.conns[ev.c].isDiscarded && (ev.inSlot ==> s.slot.None?) {
        SessionEndsKeepsSlots(s, ev.c, ev.inSlot);
      }
    } else if ev.KeyDeleted? {
      KeyDeletedKeepsSlots(s, ev.c);
    } else {
      UnregisteredKeepsSlots(s, ev);
    }
  }

  lemma RegistryEventKeepsSlots(s: State, ev: Event)
    requires SlotsOk(s) && (ev.Replaced? || ev.Dropped? || ev.Tick?)
    ensures SlotsOk(Step(s, ev))
  {
    if s.registered.Some? {
      DisownKeepsSlots(s, s.registered.value);
    }
    if ev.Replaced? && ev.spawned !in s.conns {
      SpawnKeepsSlots(DropRegistered(s), ev.spawned);
    }
  }

  lemma StepKeepsSlots(s: State, ev: Event)
    requires SlotsOk(s)
    ensures SlotsOk(Step(s, ev))
  {
    if IsHandlerEvent(ev) {
      HandlerEventIsHandlerStep(s, ev);
      if At(s, ev.e) {
        HandlerKeepsSlots(s, ev.e, ev);
      }
    } else if IsConnEvent(ev) {
      ConnEventKeepsSlots(s, ev);
    } else if ev.Replaced? || ev.Dropped? || ev.Tick? {
      RegistryEventKeepsSlots(s, ev);
    } else {
      SessionEventKeepsSlots(s, ev);
    }
  }

  lemma {:induction false} RunKeepsSlots(s: State, es: seq<Event>)
    requires SlotsOk(s)
    ensures SlotsOk(Run(s, es))
    decreases |es|
  {
    if es != [] {
      StepKeepsSlots(s, es[0]);
      RunKeepsSlots(Step(s, es[0]), es[1..]);
    }
  }

  /**
   In every run no restart request ever waits for the phone's slot, so none is ever vetoed: when a handler
   commits to a restart the slot is free, and the same stretch of code builds the replacement. That SlotStep's
   guard asks for the registry and the pending flag, and not whether the session is ending, makes no difference.
   */
  lemma RestartIsNeverVetoed(restartEnabled: bool, now: int, key: Option<StallState>, es: seq<Event>, e: EpisodeId)
    requires e in Run(Boot(restartEnabled, now, key), es).episodes
    ensures !Run(Boot(restartEnabled, now, key), es).episodes[e].pc.Requested?
  {
    RunKeepsSlots(Boot(restartEnabled, now, key), es);
  }

  /**
   The replacement is built exactly when the handler's connection is live, of a session not ending, still the
   lease's and still wanting it; then at once, in the registered connection's place.
   */
  lemma RebuildsExactlyWhenCommitted(s: State, e: EpisodeId, strike: Strike, elsewhere: bool, spawned: ConnId)
    requires SlotsOk(s) && At(s, e) && s.episodes[e].pc == Recording(Some(strike)) && spawned !in s.conns
    ensures var v := s.conns[s.episodes[e].conn];
            Step(s, Recorded(e, elsewhere, spawned)).registered == Some(spawned) <==> Commits(v, elsewhere)
    ensures var v := s.conns[s.episodes[e].conn];
            Commits(v, elsewhere) ==> s.slot.None? && Step(s, Recorded(e, elsewhere, spawned)).rebuilt == s.rebuilt + 1
  {
    HandlerEventIsHandlerStep(s, Recorded(e, elsewhere, spawned));
    if Commits(s.conns[s.episodes[e].conn], elsewhere) {
      CommitIsImmediate(s, e, strike, spawned);
    }
  }

  /** And a restart that is to be: the connection is disowned, a fresh one registered, and the strike accounted for. */
  lemma CommittedRebuilds(s: State, e: EpisodeId, strike: Strike, spawned: ConnId)
    requires SlotsOk(s) && At(s, e) && s.episodes[e].pc == Recording(Some(strike)) && spawned !in s.conns
    requires Commits(s.conns[s.episodes[e].conn], false)
    ensures var c := s.episodes[e].conn;
            var v := s.conns[c];
            Step(s, Recorded(e, false, spawned)) ==
            s.(conns := s.conns[c := v.(isDiscarded := true, isOpen := false, rollback := Some(strike))]
                          [spawned := NewConn()],
               registered := Some(spawned), slot := Some(SpawnOf(spawned)),
               episodes := s.episodes[e := s.episodes[e].(pc := Done)], ledger := s.key, rebuilt := s.rebuilt + 1)
  {
    HandlerEventIsHandlerStep(s, Recorded(e, false, spawned));
    CommitIsImmediate(s, e, strike, spawned);
  }

  // The strike's reply, what it has the handler take back, and the end of it.
  function CalledOff(s: State, e: EpisodeId, elsewhere: bool, spawned: ConnId): State {
    Step(Step(Step(s, Recorded(e, elsewhere, spawned)), UndoLands(e)), Resume(e))
  }

  lemma RecordedTakesBack(s: State, e: EpisodeId, strike: Strike, elsewhere: bool, spawned: ConnId)
    requires At(s, e) && s.episodes[e].pc == Recording(Some(strike)) && spawned !in s.conns
    requires !Commits(s.conns[s.episodes[e].conn], elsewhere)
    ensures var c := s.episodes[e].conn;
            var v := s.conns[c];
            Step(s, Recorded(e, elsewhere, spawned)) ==
            s.(conns := s.conns[c := v.(rollback := None)],
               episodes := s.episodes[e := s.episodes[e].(pc := RollingBack(
                 if v.sessionEnded then ClearKey else Restore(strike),
                 if elsewhere && !v.sessionEnded && !v.isDiscarded then Abort else Finish))])
  {
    HandlerEventIsHandlerStep(s, Recorded(e, elsewhere, spawned));
  }

  lemma UndoAndResumeSo(s: State, e: EpisodeId, undo: Undo, next: Then)
    requires At(s, e) && s.episodes[e].pc == RollingBack(undo, next)
    ensures var c := s.episodes[e].conn;
            Step(Step(s, UndoLands(e)), Resume(e)) ==
            s.(key := Undone(s.key, undo), episodes := s.episodes[e := s.episodes[e].(pc := Done)],
               conns := s.conns[c := if next.Abort? then Discarded(s.conns[c]) else s.conns[c]],
               registered := if next.Abort? && s.registered == Some(c) then None else s.registered)
  {
    var a := Step(s, UndoLands(e));
    HandlerEventIsHandlerStep(s, UndoLands(e));
    assert a.episodes == s.episodes[e := s.episodes[e].(pc := RollingBack(Nothing, next))];
    assert s.conns[s.episodes[e].conn := s.conns[s.episodes[e].conn]] == s.conns;
    HandlerEventIsHandlerStep(a, Resume(e));
  }

  /**
   A restart that is not to be, for whichever reason: an ended session has the key cleared, any other takes its
   strike back if the key still is exactly what it wrote; the connection goes exactly when the reason is a lease
   owned elsewhere; and nothing is built or counted.
   */
  lemma CalledOffSo(s: State, e: EpisodeId, strike: Strike, elsewhere: bool, spawned: ConnId)
    requires At(s, e) && s.episodes[e].pc == Recording(Some(strike)) && spawned !in s.conns
    requires !Commits(s.conns[s.episodes[e].conn], elsewhere)
    ensures var c := s.episodes[e].conn;
            var v := s.conns[c];
            var yielded := elsewhere && !v.sessionEnded && !v.isDiscarded;
            CalledOff(s, e, elsewhere, spawned) ==
            s.(key := if v.sessionEnded then None else if s.key == Some(strike.wrote) then strike.previous else s.key,
               episodes := s.episodes[e := s.episodes[e].(pc := Done)],
               conns := s.conns[c := v.(rollback := None, isDiscarded := v.isDiscarded || yielded,
                                        isOpen := v.isOpen && !yielded)],
               registered := if yielded && s.registered == Some(c) then None else s.registered)
  {
    RecordedTakesBack(s, e, strike, elsewhere, spawned);
    var a := Step(s, Recorded(e, elsewhere, spawned));
    UndoAndResumeSo(a, e, a.episodes[e].pc.undo, a.episodes[e].pc.next);
  }

  /** A strike that could not be written withdraws the request, and re-arms on a cooldown or lifts a stale silence. */
  lemma RecordFailsSo(s: State, e: EpisodeId)
    requires At(s, e) && s.episodes[e].pc.Recording?
    ensures var c := s.episodes[e].conn;
            var stalls := StillStalls(s.conns[c], s.episodes[e].generation);
            Step(s, RecordFails(e)) ==
            s.(episodes := s.episodes[e := s.episodes[e].(pc := Done)],
               conns := s.conns[c := s.conns[c].(restartRequested := false,
                                                 silentUntil := Until(if stalls then s.now + 30000 else 0))])
  {
    HandlerEventIsHandlerStep(s, RecordFails(e));
  }

  /** A strike lands one above what the key holds, and is remembered with what it replaced. */
  lemma StrikeLandsSo(s: State, e: EpisodeId, clock: int)
    requires At(s, e) && s.episodes[e].pc == Recording(None)
    ensures var s' := Step(s, StrikeLands(e, clock));
            && s'.key.Some? && Store.Restarts(s'.key) == Store.Restarts(s.key) + 1
            && s' == s.(key := s'.key,
                        episodes := s.episodes[e := s.episodes[e].(pc := Recording(Some(Strike(s.key, s'.key.value))))])
  {
    HandlerEventIsHandlerStep(s, StrikeLands(e, clock));
  }

  // What the branch no run reaches would do: a request waits for the slot, and is then carried out or withdrawn.
  lemma QueuedRequestSo(s: State, e: EpisodeId, strike: Strike, spawned: ConnId)
    requires At(s, e) && spawned !in s.conns
    ensures var c := s.episodes[e].conn;
            s.episodes[e].pc == Recording(Some(strike)) && Commits(s.conns[c], false) && s.slot.Some? ==>
              Step(s, Recorded(e, false, spawned)) ==
              s.(conns := s.conns[c := s.conns[c].(rollback := Some(strike))],
                 episodes := s.episodes[e := s.episodes[e].(pc := Requested)])
    ensures var c := s.episodes[e].conn;
            var v := s.conns[c];
            s.episodes[e].pc.Requested? && s.slot.None? && !(s.registered == Some(c) && v.restartRequested) ==>
              Step(s, SlotDrained(e, spawned)) ==
              s.(conns := s.conns[c := v.(restartRequested := false, rollback := None)],
                 episodes := s.episodes[e := s.episodes[e].(pc := RollingBack(
                   if v.rollback.None? then Nothing else if v.sessionEnded then ClearKey else Restore(v.rollback.value),
                   Finish))])
  {
    HandlerEventIsHandlerStep(s, Recorded(e, false, spawned));
    HandlerEventIsHandlerStep(s, SlotDrained(e, spawned));
  }

  // ---- every strike stands for a rebuild ----

  ghost predicate NoClose(s: State) {
    forall c | c in s.conns :: !s.conns[c].closing
  }

  // A strike of this episode is in the key, or was and may still have to come out.
  predicate Owes(pc: Pc) {
    (pc.Recording? && pc.struck.Some?) || (pc.RollingBack? && !pc.undo.Nothing?) || pc.Requested?
  }

  ghost predicate NoneOwes(s: State) {
    forall e | e in s.episodes :: !Owes(s.episodes[e].pc)
  }

  function StrikeOf(v: Conn, pc: Pc): Option<Strike> {
    match pc
    case Recording(struck) => struck
    case Requested => v.rollback
    case _ => None
  }

  // What the key will hold once this episode, wherever it has got to, is called off.
  function Due(key: Option<StallState>, v: Conn, pc: Pc): Option<StallState> {
    match pc
    case RollingBack(undo, _) => Undone(key, undo)
    case _ =>
      var strike := StrikeOf(v, pc);
      if strike.None? then key else if v.sessionEnded then None else Restored(key, strike.value)
  }

  ghost predicate EpisodeOk(s: State, e: EpisodeId)
    requires At(s, e)
  {
    OwingOk(s, s.episodes[e].conn, s.episodes[e].pc, s.conns[s.episodes[e].conn])
  }

  ghost predicate OwingOk(s: State, c: ConnId, pc: Pc, v: Conn) {
    var mine := s.registered == Some(c) && !v.sessionEnded;
    var strike := StrikeOf(v, pc);
    && (mine ==> NoClose(s))
    && (v.sessionEnded ==> s.ledger == None)
    && (pc.Requested? ==> v.rollback.Some?)
    && (NoClose(s) ==> Due(s.key, v, pc) == s.ledger)
    && (NoClose(s) && pc.Requested? && v.sessionEnded ==> s.key == None)
    && (strike.Some? ==> strike.value.wrote.restarts == Store.Restarts(strike.value.previous) + 1)
    && (strike.Some? && mine ==> s.key == Some(strike.value.wrote) && strike.value.previous == s.ledger)
  }

  ghost predicate Books(s: State) {
    && (forall e, o | e in s.episodes && o in s.episodes && Owes(s.episodes[e].pc) && Owes(s.episodes[o].pc) :: e == o)
    && (forall e | e in s.episodes :: s.episodes[e].conn in s.conns)
    && (forall e | e in s.episodes && Owes(s.episodes[e].pc) :: EpisodeOk(s, e))
    && (NoneOwes(s) && NoClose(s) ==> s.key == s.ledger)
    && (!NoClose(s) ==> s.ledger == None)
    && Store.Restarts(s.ledger) == s.found + s.rebuilt
    && (forall c | c in s.conns && !s.conns[c].isDiscarded :: s.registered == Some(c))
    && (forall c | c in s.conns && s.conns[c].sessionEnded :: s.conns[c].isDiscarded)
    && (s.registered.Some? ==> s.registered.value in s.conns)
  }

  // A strike lands only while no other episode's is outstanding. A session that goes on strikes only while no
  // other one's end is unfinished; one that has ended, only while its successor has no history yet. And Redis
  // answers.
  ghost predicate Orderly(s: State, ev: Event) {
    && (ev.StrikeLands? && At(s, ev.e) && s.episodes[ev.e].pc == Recording(None) ==>
          NoneOwes(s) && if s.conns[s.episodes[ev.e].conn].sessionEnded then s.ledger == None else NoClose(s))
    && !ev.UndoFails?
    && (ev.RecordFails? && ev.e in s.episodes ==> !Owes(s.episodes[ev.e].pc))
  }

  ghost predicate OrderlyRun(s: State, es: seq<Event>)
    decreases |es|
  {
    es == [] || (Orderly(s, es[0]) && OrderlyRun(Step(s, es[0]), es[1..]))
  }

  // A handler's move with what it does to the key; nothing else that the books read changes.
  ghost predicate Moves(s: State, s': State, e: EpisodeId, pc: Pc, v: Conn) {
    && At(s, e) && s' == Move(s, e, pc, v).(key := s'.key)
    && var was := s.conns[s.episodes[e].conn];
       v.closing == was.closing && v.sessionEnded == was.sessionEnded && v.isDiscarded == was.isDiscarded
  }

  lemma CloseIsSame(s: State, s': State)
    requires s'.conns.Keys == s.conns.Keys && forall c | c in s.conns :: s'.conns[c].closing == s.conns[c].closing
    ensures NoClose(s') <==> NoClose(s)
  {
  }

  // What an episode owes is read from these alone.
  lemma OwingKept(s: State, s': State, c: ConnId, pc: Pc, v: Conn, v': Conn)
    requires OwingOk(s, c, pc, v) && s'.ledger == s.ledger && s'.key == s.key && (NoClose(s') <==> NoClose(s))
    requires s'.registered == Some(c) ==> s.registered == Some(c)
    requires v'.sessionEnded == v.sessionEnded && v'.rollback == v.rollback
    ensures OwingOk(s', c, pc, v')
  {
  }

  lemma AllOwingKept(s: State, s': State)
    requires Books(s) && s'.ledger == s.ledger && s'.key == s.key && (NoClose(s') <==> NoClose(s))
    requires forall c | c in s.conns ::
               && c in s'.conns && (s'.registered == Some(c) ==> s.registered == Some(c))
               && s'.conns[c].sessionEnded == s.conns[c].sessionEnded && s'.conns[c].rollback == s.conns[c].rollback
    ensures forall e | e in s.episodes && Owes(s.episodes[e].pc) ::
              OwingOk(s', s.episodes[e].conn, s.episodes[e].pc, s'.conns[s.episodes[e].conn])
  {
    forall e | e in s.episodes && Owes(s.episodes[e].pc)
      ensures OwingOk(s', s.episodes[e].conn, s.episodes[e].pc, s'.conns[s.episodes[e].conn])
    {
      var c := s.episodes[e].conn;
      assert EpisodeOk(s, e);
      OwingKept(s, s', c, s.episodes[e].pc, s.conns[c], s'.conns[c]);
    }
  }

  // An episode that owes nothing moves on without owing anything; whoever else owes is not touched.
  lemma IdleMoveKeepsBooks(s: State, e: EpisodeId, pc: Pc, v: Conn)
    requires Books(s) && e in s.episodes && Moves(s, Move(s, e, pc, v), e, pc, v)
             && !Owes(s.episodes[e].pc) && !Owes(pc)
    requires v.rollback == s.conns[s.episodes[e].conn].rollback
    ensures Books(Move(s, e, pc, v))
  {
    var c := s.episodes[e].conn;
    SameBooksHold(s, SetConn(s, c, v));
    IdleEpisodeKeepsBooks(SetConn(s, c, v), e, s.episodes[e].(pc := pc));
  }

  // The one that owes, or the first to owe, moves.
  lemma MoveKeepsBooks(s: State, s': State, e: EpisodeId, pc: Pc, v: Conn)
    requires Books(s) && Moves(s, s', e, pc, v) && (Owes(s.episodes[e].pc) || NoneOwes(s))
    requires Owes(pc) ==> OwingOk(s.(key := s'.key), s.episodes[e].conn, pc, v)
    requires !Owes(pc) && NoClose(s) ==> s'.key == s.ledger
    ensures Books(s')
  {
    CloseIsSame(s, s');
    CloseIsSame(s, s.(key := s'.key));
    assert forall o | o in s.episodes && o != e :: s'.episodes[o] == s.episodes[o] && !Owes(s'.episodes[o].pc);
    assert Owes(pc) ==> EpisodeOk(s', e);
  }

  // ---- each handler's stretch ----

  lemma LookupKeepsBooks(s: State, e: EpisodeId, reply: Lookup)
    requires Books(s) && e in s.episodes && s.episodes[e].pc.Lookup?
    ensures Books(LookupStep(s, e, s.conns[s.episodes[e].conn], reply))
  {
    var c, generation := s.episodes[e].conn, s.episodes[e].generation;
    var v := s.conns[c];
    if reply.LookupFailed? {
      IdleMoveKeepsBooks(s, e, Done, Rearmed(v, generation, s.now));
    } else if !IsCurrent(v, generation) || (!reply.ownedElsewhere && reply.mayRestart && !reply.slotFree) {
      IdleMoveKeepsBooks(s, e, Done, v.(silentUntil := Until(0)));
    } else if reply.ownedElsewhere {
      IdleMoveKeepsBooks(s, e, Done, v);
      AbortKeepsBooks(Move(s, e, Done, v), c);
      assert s.conns[c := v][c := Discarded(v)] == s.conns[c := Discarded(v)];
    } else if !reply.mayRestart {
      IdleMoveKeepsBooks(s, e, NextAllowed, v);
    } else {
      IdleMoveKeepsBooks(s, e, Recording(None), v.(restartRequested := true));
    }
  }

  // What the books read is the same on both sides, but for connections that have been disowned since.
  ghost predicate SameBooks(s: State, s': State) {
    && s' == s.(conns := s'.conns, now := s'.now, slot := s'.slot) && s'.conns.Keys == s.conns.Keys
    && forall c | c in s.conns ::
         var v, v' := s.conns[c], s'.conns[c];
         v'.closing == v.closing && v'.sessionEnded == v.sessionEnded && v'.rollback == v.rollback
         && (v.isDiscarded ==> v'.isDiscarded)
  }

  lemma SameBooksHold(s: State, s': State)
    requires Books(s) && SameBooks(s, s')
    ensures Books(s')
  {
    CloseIsSame(s, s');
    AllOwingKept(s, s');
  }

  lemma DiscardKeepsBooks(s: State, c: ConnId)
    requires Books(s) && c in s.conns
    ensures Books(SetConn(s, c, Discarded(s.conns[c])))
  {
    SameBooksHold(s, SetConn(s, c, Discarded(s.conns[c])));
  }

  // With nobody live, the registry may point at nothing.
  lemma UnregisterKeepsBooks(s: State)
    requires Books(s) && (forall c | c in s.conns :: s.conns[c].isDiscarded)
    ensures Books(s.(registered := None))
  {
    AllOwingKept(s, s.(registered := None));
  }

  lemma AbortKeepsBooks(s: State, c: ConnId)
    requires Books(s) && c in s.conns
    ensures Books(Evict(SetConn(s, c, Discarded(s.conns[c])), c))
  {
    DiscardKeepsBooks(s, c);
    var s1 := SetConn(s, c, Discarded(s.conns[c]));
    if s.registered == Some(c) {
      UnregisterKeepsBooks(s1);
    }
  }

  lemma NextKeepsBooks(s: State, e: EpisodeId, next: NextRead)
    requires Books(s) && e in s.episodes && s.episodes[e].pc.NextAllowed?
    ensures Books(NextStep(s, e, s.conns[s.episodes[e].conn], next))
  {
    var s' := NextStep(s, e, s.conns[s.episodes[e].conn], next);
    IdleMoveKeepsBooks(s, e, Done, s'.conns[s.episodes[e].conn]);
  }

  lemma StrikeKeepsBooks(s: State, e: EpisodeId, clock: int)
    requires Books(s) && e in s.episodes && s.episodes[e].pc == Recording(None) && Orderly(s, StrikeLands(e, clock))
    ensures Books(StrikeStep(s, e, clock))
  {
    var s' := StrikeStep(s, e, clock);
    var v := s.conns[s.episodes[e].conn];
    assert s'.conns == s.conns[s.episodes[e].conn := v];
    CloseIsSame(s, s.(key := s'.key));
    MoveKeepsBooks(s, s', e, s'.episodes[e].pc, v);
  }

  lemma RecordedMoveKeepsBooks(s: State, e: EpisodeId, strike: Strike, elsewhere: bool)
    requires Books(s) && e in s.episodes && s.episodes[e].pc == Recording(Some(strike))
    ensures Books(RecordedMove(s, e, s.conns[s.episodes[e].conn], strike, elsewhere))
  {
    assert EpisodeOk(s, e);
    var v := s.conns[s.episodes[e].conn];
    var s' := RecordedMove(s, e, v, strike, elsewhere);
    assert s.(key := s'.key) == s;
    MoveKeepsBooks(s, s', e, s'.episodes[e].pc, s'.conns[s.episodes[e].conn]);
  }

  lemma RecordedKeepsBooks(s: State, e: EpisodeId, strike: Strike, elsewhere: bool, spawned: ConnId)
    requires Books(s) && e in s.episodes && s.episodes[e].pc == Recording(Some(strike)) && spawned !in s.conns
    ensures Books(RecordedStep(s, e, s.conns[s.episodes[e].conn], strike, elsewhere, spawned))
  {
    var s1 := RecordedMove(s, e, s.conns[s.episodes[e].conn], strike, elsewhere);
    RecordedMoveKeepsBooks(s, e, strike, elsewhere);
    if s1.episodes[e].pc.Requested? {
      SlotKeepsBooks(s1, e, spawned);
    }
  }

  lemma RecordFailsKeepsBooks(s: State, e: EpisodeId)
    requires Books(s) && e in s.episodes && s.episodes[e].pc == Recording(None)
    ensures Books(RecordFailsStep(s, e, s.conns[s.episodes[e].conn]))
  {
    var s' := RecordFailsStep(s, e, s.conns[s.episodes[e].conn]);
    IdleMoveKeepsBooks(s, e, Done, s'.conns[s.episodes[e].conn]);
  }

  lemma UndoKeepsBooks(s: State, e: EpisodeId)
    requires Books(s) && e in s.episodes && s.episodes[e].pc.RollingBack?
    ensures Books(HandlerStep(s, e, UndoLands(e)))
  {
    var pc, v := s.episodes[e].pc, s.conns[s.episodes[e].conn];
    if pc.undo.Nothing? {
      IdleMoveKeepsBooks(s, e, pc, v);
    } else {
      assert EpisodeOk(s, e);
      MoveKeepsBooks(s, HandlerStep(s, e, UndoLands(e)), e, pc.(undo := Nothing), v);
    }
  }

  lemma ResumeKeepsBooks(s: State, e: EpisodeId)
    requires Books(s) && e in s.episodes && s.episodes[e].pc.RollingBack? && s.episodes[e].pc.undo.Nothing?
    ensures Books(ResumeStep(s, e, s.conns[s.episodes[e].conn], s.episodes[e].pc.next))
  {
    var c := s.episodes[e].conn;
    IdleMoveKeepsBooks(s, e, Done, s.conns[c]);
    if s.episodes[e].pc.next.Abort? {
      AbortKeepsBooks(Move(s, e, Done, s.conns[c]), c);
      assert s.conns[c := s.conns[c]][c := Discarded(s.conns[c])] == s.conns[c := Discarded(s.conns[c])];
    }
  }

  // The restart's own episode was the one that owed a strike.
  lemma RebuildSettles(s: State, e: EpisodeId, spawned: ConnId)
    requires Books(s) && e in s.episodes && s.episodes[e].pc.Requested? && spawned !in s.conns
    requires s.registered == Some(s.episodes[e].conn) && s.conns[s.episodes[e].conn].restartRequested
    ensures NoneOwes(SlotStep(s, e, s.conns[s.episodes[e].conn], spawned))
  {
    var s' := SlotStep(s, e, s.conns[s.episodes[e].conn], spawned);
    assert s'.episodes == s.episodes[e := s.episodes[e].(pc := Done)];
    assert forall o | o in s.episodes && o != e :: s'.episodes[o] == s.episodes[o];
  }

  // The rebuilt connection is the only live one.
  lemma RebuildReplaces(s: State, e: EpisodeId, spawned: ConnId)
    requires Books(s) && e in s.episodes && s.episodes[e].pc.Requested? && spawned !in s.conns
    requires s.registered == Some(s.episodes[e].conn) && s.conns[s.episodes[e].conn].restartRequested
    ensures var s' := SlotStep(s, e, s.conns[s.episodes[e].conn], spawned);
            && (NoClose(s') <==> NoClose(s))
            && (forall d | d in s'.conns && !s'.conns[d].isDiscarded :: d == spawned)
            && (forall d | d in s'.conns && s'.conns[d].sessionEnded :: s'.conns[d].isDiscarded)
  {
    var c := s.episodes[e].conn;
    var s' := SlotStep(s, e, s.conns[c], spawned);
    assert s'.conns == s.conns[c := Discarded(s.conns[c])][spawned := NewConn()];
    assert s'.conns[c].closing == s.conns[c].closing;
    assert forall d | d in s.conns && d != c :: s'.conns[d] == s.conns[d];
  }

  lemma RebuildKeepsBooks(s: State, e: EpisodeId, spawned: ConnId)
    requires Books(s) && e in s.episodes && s.episodes[e].pc.Requested? && spawned !in s.conns
    requires s.registered == Some(s.episodes[e].conn) && s.conns[s.episodes[e].conn].restartRequested
    ensures Books(SlotStep(s, e, s.conns[s.episodes[e].conn], spawned))
  {
    assert EpisodeOk(s, e);
    RebuildSettles(s, e, spawned);
    RebuildReplaces(s, e, spawned);
  }

  lemma VetoKeepsBooks(s: State, e: EpisodeId, spawned: ConnId)
    requires Books(s) && e in s.episodes && s.episodes[e].pc.Requested? && spawned !in s.conns
    requires !(s.registered == Some(s.episodes[e].conn) && s.conns[s.episodes[e].conn].restartRequested)
    ensures Books(SlotStep(s, e, s.conns[s.episodes[e].conn], spawned))
  {
    assert EpisodeOk(s, e);
    var s' := SlotStep(s, e, s.conns[s.episodes[e].conn], spawned);
    assert s.(key := s'.key) == s;
    MoveKeepsBooks(s, s', e, s'.episodes[e].pc, s'.conns[s.episodes[e].conn]);
  }

  lemma SlotKeepsBooks(s: State, e: EpisodeId, spawned: ConnId)
    requires Books(s) && e in s.episodes && s.episodes[e].pc.Requested? && spawned !in s.conns
    ensures Books(SlotStep(s, e, s.conns[s.episodes[e].conn], spawned))
  {
    if s.registered == Some(s.episodes[e].conn) && s.conns[s.episodes[e].conn].restartRequested {
      RebuildKeepsBooks(s, e, spawned);
    } else {
      VetoKeepsBooks(s, e, spawned);
    }
  }

  lemma HandlerKeepsBooks(s: State, e: EpisodeId, ev: Event)
    requires Books(s) && At(s, e) && Orderly(s, ev) && (IsHandlerEvent(ev) ==> ev.e == e)
    ensures Books(HandlerStep(s, e, ev))
  {
    var pc := s.episodes[e].pc;
    if ev.LookupDone? && pc.Lookup? {
      LookupKeepsBooks(s, e, ev.reply);
    } else if ev.NextDone? && pc.NextAllowed? {
      NextKeepsBooks(s, e, ev.next);
    } else if ev.StrikeLands? && pc == Recording(None) {
      StrikeKeepsBooks(s, e, ev.clock);
    } else if ev.Recorded? && pc.Recording? && pc.struck.Some? && ev.spawned !in s.conns {
      RecordedKeepsBooks(s, e, pc.struck.value, ev.ownedElsewhere, ev.spawned);
    } else if ev.RecordFails? && pc.Recording? {
      RecordFailsKeepsBooks(s, e);
    } else if ev.UndoLands? && pc.RollingBack? {
      UndoKeepsBooks(s, e);
    } else if ev.Resume? && pc.RollingBack? && pc.undo.Nothing? {
      ResumeKeepsBooks(s, e);
    } else if ev.SlotDrained? && pc.Requested? && ev.spawned !in s.conns {
      SlotKeepsBooks(s, e, ev.spawned);
    }
  }

  // ---- everything else ----

  // A connection's own events touch nothing the books read.
  lemma ConnEventKeepsBooks(s: State, ev: Event)
    requires Books(s) && IsConnEvent(ev) && ev.c in s.conns
    ensures Books(SetConn(s, ev.c, ConnEvent(s.conns[ev.c], ev, s.now)))
  {
    ConnEventSpares(s.conns[ev.c], ev, s.now);
    SameBooksHold(s, SetConn(s, ev.c, ConnEvent(s.conns[ev.c], ev, s.now)));
  }

  lemma ConnEventSpares(v: Conn, ev: Event, now: int)
    ensures var v' := ConnEvent(v, ev, now);
            v'.closing == v.closing && v'.sessionEnded == v.sessionEnded && v'.isDiscarded == v.isDiscarded
            && v'.rollback == v.rollback
  {
  }

  // An episode comes or changes without owing before or after.
  lemma IdleEpisodeKeepsBooks(s: State, e: EpisodeId, ep: Episode)
    requires Books(s) && ep.conn in s.conns && !Owes(ep.pc) && (e in s.episodes ==> !Owes(s.episodes[e].pc))
    ensures Books(s.(episodes := s.episodes[e := ep]))
  {
    var s' := s.(episodes := s.episodes[e := ep]);
    assert forall o | o in s'.episodes && Owes(s'.episodes[o].pc) :: o in s.episodes && s'.episodes[o] == s.episodes[o];
    assert forall o | o in s.episodes && Owes(s.episodes[o].pc) :: s'.episodes[o] == s.episodes[o];
    AllOwingKept(s, s');
  }

  lemma LaunchKeepsBooks(s: State, e: EpisodeId, c: ConnId)
    requires Books(s) && e !in s.episodes && c in s.conns
    ensures Books(LaunchStep(s, e, c))
  {
    var s1 := SetConn(s, c, s.conns[c].(silentUntil := Forever));
    SameBooksHold(s, s1);
    IdleEpisodeKeepsBooks(s1, e, Episode(c, s.conns[c].generation, if s.restartEnabled then Lookup else Done));
  }

  lemma SessionEndsKeepsBooks(s: State, c: ConnId, inSlot: bool)
    requires Books(s) && c in s.conns && !s.conns[c].isDiscarded
    ensures Books(SessionEndsStep(s, c, inSlot))
  {
    var s' := SessionEndsStep(s, c, inSlot);
    assert s'.conns[c].closing;
    forall e | e in s.episodes && Owes(s.episodes[e].pc)
      ensures EpisodeOk(s', e)
    {
      assert EpisodeOk(s, e);
    }
  }

  lemma KeyDeletedKeepsBooks(s: State, c: ConnId)
    requires Books(s) && c in s.conns && s.conns[c].closing
    ensures Books(SetConn(s, c, s.conns[c].(closing := false)).(key := None))
  {
    var s' := SetConn(s, c, s.conns[c].(closing := false)).(key := None);
    assert !NoClose(s);
    forall e | e in s.episodes && Owes(s.episodes[e].pc)
      ensures EpisodeOk(s', e)
    {
      assert EpisodeOk(s, e);
    }
  }

  lemma DropKeepsBooks(s: State)
    requires Books(s)
    ensures Books(DropRegistered(s)) &&
            (forall c | c in DropRegistered(s).conns :: DropRegistered(s).conns[c].isDiscarded)
  {
    if s.registered.Some? {
      DiscardKeepsBooks(s, s.registered.value);
    }
  }

  lemma SpawnKeepsBooks(s: State, spawned: ConnId)
    requires Books(s) && spawned !in s.conns && (forall c | c in s.conns :: s.conns[c].isDiscarded)
    ensures Books(Spawned(s, spawned))
  {
    var s' := Spawned(s, spawned);
    assert NoClose(s') <==> NoClose(s) by {
      assert forall d | d in s.conns :: s'.conns[d] == s.conns[d];
    }
    AllOwingKept(s, s');
  }

  lemma EvictKeepsBooks(s: State, c: ConnId)
    requires Books(s) && c in s.conns && s.conns[c].isDiscarded
    ensures Books(Evict(s, c))
  {
    if s.registered == Some(c) {
      UnregisterKeepsBooks(s);
    }
  }

  lemma SlotFreedKeepsBooks(s: State)
    requires Books(s)
    ensures Books(SlotFreedStep(s))
  {
    if s.slot.Some? {
      var c := s.slot.value.conn;
      if s.slot.value.LogoutOf? && c in s.conns && s.conns[c].isDiscarded {
        EvictKeepsBooks(s, c);
        SameBooksHold(Evict(s, c), Evict(s, c).(slot := None));
      }
      SameBooksHold(s, s.(slot := None));
    }
  }

  lemma RegistryEventKeepsBooks(s: State, ev: Event)
    requires Books(s) && (ev.Replaced? || ev.Dropped?)
    ensures Books(Step(s, ev))
  {
    DropKeepsBooks(s);
    if ev.Dropped? {
      UnregisterKeepsBooks(DropRegistered(s));
    } else if ev.spawned !in s.conns {
      SpawnKeepsBooks(DropRegistered(s), ev.spawned);
    }
  }

  lemma EndEventKeepsBooks(s: State, ev: Event)
    requires Books(s) && (ev.SessionEnds? || ev.KeyDeleted?)
    ensures Books(Step(s, ev))
  {
    if ev.c in s.conns {
      if ev.SessionEnds? {
        if !s.conns[ev.c].isDiscarded {
          SessionEndsKeepsBooks(s, ev.c, ev.inSlot);
        }
      } else if s.conns[ev.c].closing {
        KeyDeletedKeepsBooks(s, ev.c);
      }
    }
  }

  lemma UnregisteredKeepsBooks(s: State, ev: Event)
    requires Books(s) && (ev.Unregistered? || ev.SlotFreed?)
    ensures Books(Step(s, ev))
  {
    if ev.SlotFreed? {
      SlotFreedKeepsBooks(s);
    } else if ev.c in s.conns && s.conns[ev.c].isDiscarded {
      EvictKeepsBooks(s, ev.c);
    }
  }

  lemma OtherEventKeepsBooks(s: State, ev: Event)
    requires Books(s) && !IsHandlerEvent(ev) && !IsConnEvent(ev)
    ensures Books(Step(s, ev))
  {
    if ev.Launch? {
      if ev.e !in s.episodes && ev.c in s.conns && Reportable(s.conns[ev.c], s.now) {
        LaunchKeepsBooks(s, ev.e, ev.c);
      }
    } else if ev.Tick? {
      SameBooksHold(s, Step(s, ev));
    } else if ev.Replaced? || ev.Dropped? {
      RegistryEventKeepsBooks(s, ev);
    } else if ev.SessionEnds? || ev.KeyDeleted? {
      EndEventKeepsBooks(s, ev);
    } else {
      UnregisteredKeepsBooks(s, ev);
    }
  }

  lemma StepKeepsBooks(s: State, ev: Event)
    requires Books(s) && Orderly(s, ev)
    ensures Books(Step(s, ev))
  {
    if IsHandlerEvent(ev) {
      HandlerEventIsHandlerStep(s, ev);
      if At(s, ev.e) {
        HandlerKeepsBooks(s, ev.e, ev);
      }
    } else if IsConnEvent(ev) {
      if ev.c in s.conns {
        ConnEventIsSetConn(s, ev);
        ConnEventKeepsBooks(s, ev);
      }
    } else {
      OtherEventKeepsBooks(s, ev);
    }
  }

  lemma {:induction false} RunKeepsBooks(s: State, es: seq<Event>)
    requires Books(s) && OrderlyRun(s, es)
    ensures Books(Run(s, es))
    decreases |es|
  {
    if es != [] {
      StepKeepsBooks(s, es[0]);
      RunKeepsBooks(Step(s, es[0]), es[1..]);
    }
  }

  /**
   For every exit of the handler, episodes overlapping or not, and a strike that lands while its own session is
   being closed included: as long as strikes land in order and Redis answers, then whenever no strike is
   outstanding and no end unfinished the key holds exactly the ledger, that is, the state it had when the session
   began plus one strike for each restart carried out, or nothing if the session ended.
   */
  lemma StrikesAreRebuilds(restartEnabled: bool, now: int, key: Option<StallState>, es: seq<Event>)
    requires OrderlyRun(Boot(restartEnabled, now, key), es)
    ensures var s := Run(Boot(restartEnabled, now, key), es);
            NoneOwes(s) && NoClose(s) ==> s.key == s.ledger && Store.Restarts(s.key) == s.found + s.rebuilt
  {
    RunKeepsBooks(Boot(restartEnabled, now, key), es);
  }

  // Only a rebuild writes the ledger among the handler's stretches.
  lemma HandlersSpareLedger(s: State, e: EpisodeId, ev: Event)
    requires At(s, e) && !ev.SlotDrained? && !ev.Recorded?
    ensures HandlerStep(s, e, ev).ledger == s.ledger
  {
  }

  lemma OthersSpareLedger(s: State, ev: Event)
    requires !IsHandlerEvent(ev) && !IsConnEvent(ev) && !ev.SessionEnds?
    ensures Step(s, ev).ledger == s.ledger
  {
  }

  lemma SlotMovesLedger(s: State, e: EpisodeId, spawned: ConnId)
    requires Books(s) && e in s.episodes && s.episodes[e].pc.Requested? && spawned !in s.conns
    ensures var s' := SlotStep(s, e, s.conns[s.episodes[e].conn], spawned);
            s'.ledger != s.ledger ==> s'.rebuilt == s.rebuilt + 1 && s'.found == s.found
                                      && Store.Restarts(s'.ledger) == Store.Restarts(s.ledger) + 1
  {
    assert EpisodeOk(s, e);
  }

  lemma RecordedMovesLedger(s: State, e: EpisodeId, strike: Strike, elsewhere: bool, spawned: ConnId)
    requires Books(s) && e in s.episodes && s.episodes[e].pc == Recording(Some(strike)) && spawned !in s.conns
    ensures var s' := RecordedStep(s, e, s.conns[s.episodes[e].conn], strike, elsewhere, spawned);
            s'.ledger != s.ledger ==> s'.rebuilt == s.rebuilt + 1 && s'.found == s.found
                                      && Store.Restarts(s'.ledger) == Store.Restarts(s.ledger) + 1
  {
    var s1 := RecordedMove(s, e, s.conns[s.episodes[e].conn], strike, elsewhere);
    RecordedMoveKeepsBooks(s, e, strike, elsewhere);
    if s1.episodes[e].pc.Requested? {
      SlotMovesLedger(s1, e, spawned);
    }
  }

  /** The ledger moves only when a restart is carried out, by one strike, or when a session ends. */
  lemma LedgerMovesOnlyByRebuilds(s: State, ev: Event)
    requires Books(s)
    ensures Step(s, ev).ledger != s.ledger ==> ev.Recorded? || ev.SlotDrained? || ev.SessionEnds?
    ensures Step(s, ev).ledger != s.ledger && !ev.SessionEnds? ==>
              && Step(s, ev).rebuilt == s.rebuilt + 1 && Step(s, ev).found == s.found
              && Store.Restarts(Step(s, ev).ledger) == Store.Restarts(s.ledger) + 1
  {
    if IsHandlerEvent(ev) {
      HandlerEventIsHandlerStep(s, ev);
      if At(s, ev.e) {
        var pc := s.episodes[ev.e].pc;
        if !ev.SlotDrained? && !ev.Recorded? {
          HandlersSpareLedger(s, ev.e, ev);
        } else if ev.SlotDrained? && pc.Requested? && ev.spawned !in s.conns {
          SlotMovesLedger(s, ev.e, ev.spawned);
        } else if ev.Recorded? && pc.Recording? && pc.struck.Some? && ev.spawned !in s.conns {
          RecordedMovesLedger(s, ev.e, pc.struck.value, ev.ownedElsewhere, ev.spawned);
        }
      }
    } else if IsConnEvent(ev) {
      if ev.c in s.conns {
        ConnEventIsSetConn(s, ev);
      }
    } else if !ev.SessionEnds? {
      OthersSpareLedger(s, ev);
    }
  }

  // ---- what overlapping strikes cost ----

  // A connection that serves: nothing failing, nothing silenced, nothing asked for.
  predicate IsServing(v: Conn) {
    && v.isOpen && !v.isDiscarded && !v.sessionEnded && v.consecutive == 0 && v.streakStartedAt.None?
    && v.silentUntil == Until(0) && !v.restartRequested && v.rollback.None?
  }

  // Three timeouts and ninety seconds.
  function Stalled(s: State, c: ConnId): State {
    Step(Step(Step(Step(s, SendTimesOut(c)), SendTimesOut(c)), SendTimesOut(c)), Tick(SEND_STALL_MIN_DURATION_MS))
  }

  lemma StallsSo(s: State, c: ConnId)
    requires c in s.conns && IsServing(s.conns[c])
    ensures Stalled(s, c) ==
            SetConn(s, c, s.conns[c].(consecutive := 3, streakStartedAt := Some(s.now)))
              .(now := s.now + SEND_STALL_MIN_DURATION_MS)
  {
    var s1 := Step(s, SendTimesOut(c));
    assert s1 == SetConn(s, c, s.conns[c].(consecutive := 1, streakStartedAt := Some(s.now)));
    var s2 := Step(s1, SendTimesOut(c));
    assert s2 == SetConn(s, c, s.conns[c].(consecutive := 2, streakStartedAt := Some(s.now)));
  }

  // The episode up to its request for a restart.
  function Asked(s: State, e: EpisodeId, c: ConnId): State {
    Step(Step(Stalled(s, c), Launch(e, c)), LookupDone(e, LookedUp(true, false, true)))
  }

  // Its strike lands, its reply outstanding, and a late send clears the stall.
  function StruckAndCleared(s: State, e: EpisodeId, c: ConnId, clock: int): State {
    Step(Step(Asked(s, e, c), StrikeLands(e, clock)), Recovered(c))
  }

  lemma AsksSo(s: State, e: EpisodeId, c: ConnId)
    requires s.restartEnabled && s.now >= 0 && e !in s.episodes && c in s.conns && IsServing(s.conns[c])
    ensures Asked(s, e, c).conns == s.conns[c := s.conns[c].(consecutive := 3, streakStartedAt := Some(s.now),
                                                            silentUntil := Forever, restartRequested := true)]
    ensures Asked(s, e, c).episodes == s.episodes[e := Episode(c, s.conns[c].generation, Recording(None))]
    ensures Asked(s, e, c) == s.(now := s.now + SEND_STALL_MIN_DURATION_MS,
                                 conns := Asked(s, e, c).conns, episodes := Asked(s, e, c).episodes)
  {
    StallsSo(s, c);
    var v := s.conns[c].(consecutive := 3, streakStartedAt := Some(s.now));
    var a := Step(Stalled(s, c), Launch(e, c));
    assert a == Stalled(s, c).(conns := s.conns[c := v.(silentUntil := Forever)],
                               episodes := s.episodes[e := Episode(c, v.generation, Lookup)]);
  }

  // With its strike in, the cleared connection is as it was.
  lemma ClearsSo(a: State, e: EpisodeId, c: ConnId, clock: int, v: Conn)
    requires At(a, e) && a.episodes[e].conn == c && a.episodes[e].pc == Recording(None) && IsServing(v)
    requires exists at :: a.conns[c] == v.(consecutive := 3, streakStartedAt := at, silentUntil := Forever,
                                           restartRequested := true)
    ensures var strike := Strike(a.key, Store.Struck(a.key, clock));
            Step(Step(a, StrikeLands(e, clock)), Recovered(c)) ==
            a.(key := Some(strike.wrote), conns := a.conns[c := v],
               episodes := a.episodes[e := a.episodes[e].(pc := Recording(Some(strike)))])
  {
  }

  lemma StrikesSo(s: State, e: EpisodeId, c: ConnId, clock: int)
    requires s.restartEnabled && s.now >= 0 && e !in s.episodes && c in s.conns && IsServing(s.conns[c])
    ensures var strike := Strike(s.key, Store.Struck(s.key, clock));
            StruckAndCleared(s, e, c, clock) ==
            s.(now := s.now + SEND_STALL_MIN_DURATION_MS, key := Some(strike.wrote),
               episodes := s.episodes[e := Episode(c, s.conns[c].generation, Recording(Some(strike)))])
  {
    AsksSo(s, e, c);
    ClearsSo(Asked(s, e, c), e, c, clock, s.conns[c]);
    assert Asked(s, e, c).conns[c := s.conns[c]] == s.conns;
  }

  // The reply at last, to a handler whose restart is no longer wanted: the strike is taken back.
  function TakenBack(s: State, e: EpisodeId, spawned: ConnId): State {
    Step(Step(Step(s, Recorded(e, false, spawned)), UndoLands(e)), Resume(e))
  }

  lemma TakesBackSo(s: State, e: EpisodeId, strike: Strike, spawned: ConnId)
    requires At(s, e) && s.episodes[e].pc == Recording(Some(strike)) && IsServing(s.conns[s.episodes[e].conn])
    requires spawned !in s.conns
    ensures TakenBack(s, e, spawned) ==
            s.(key := Restored(s.key, strike), episodes := s.episodes[e := s.episodes[e].(pc := Done)])
  {
    var c := s.episodes[e].conn;
    var a := Step(s, Recorded(e, false, spawned));
    assert a.episodes[e].pc == RollingBack(Restore(strike), Finish) && a.conns == s.conns;
    var b := Step(a, UndoLands(e));
    assert b.episodes[e].pc == RollingBack(Nothing, Finish) && b.conns == s.conns;
  }

  // A first connection, up and serving.
  function Serving(now: int): State {
    Step(Step(Step(Boot(true, now, None), Replaced(0)), SlotFreed), Opened(0))
  }

  lemma ServesSo(now: int)
    ensures Serving(now) == Boot(true, now, None).(conns := map[0 := NewConn().(isOpen := true)], registered := Some(0))
  {
    var a := Step(Boot(true, now, None), Replaced(0));
    assert a.conns == map[0 := NewConn()] && a.slot == Some(SpawnOf(0));
    var b := Step(a, SlotFreed);
    assert Step(b, Opened(0)).conns == map[0 := NewConn().(isOpen := true)];
  }

  // Two restarts asked for in turn, each strike in and neither reply: the second one's strike is on the first's.
  function BothStruck(now: int, first: int, second: int): State {
    StruckAndCleared(StruckAndCleared(Serving(now), 0, 0, first), 1, 0, second)
  }

  lemma BothStrikeSo(now: int, first: int, second: int)
    requires now >= 0
    ensures var strike := Strike(None, Store.Struck(None, first));
            var onTop := Strike(Some(strike.wrote), Store.Struck(Some(strike.wrote), second));
            BothStruck(now, first, second) ==
            Serving(now).(now := now + 2 * SEND_STALL_MIN_DURATION_MS, key := Some(onTop.wrote),
                          episodes := map[0 := Episode(0, 0, Recording(Some(strike))),
                                          1 := Episode(0, 0, Recording(Some(onTop)))])
    ensures Serving(now).conns == map[0 := NewConn().(isOpen := true)] && Serving(now).registered == Some(0)
    ensures Serving(now).ledger == None && Serving(now).rebuilt == 0
  {
    ServesSo(now);
    StrikesSo(Serving(now), 0, 0, first);
    StrikesSo(StruckAndCleared(Serving(now), 0, 0, first), 1, 0, second);
  }

  // The first finds its strike covered and leaves it; the second puts it back.
  lemma BothTakenBackSo(s: State, strike: Strike, onTop: Strike)
    requires s.episodes == map[0 := Episode(0, 0, Recording(Some(strike))), 1 := Episode(0, 0, Recording(Some(onTop)))]
    requires 0 in s.conns && IsServing(s.conns[0]) && 9 !in s.conns
    requires s.key == Some(onTop.wrote) && onTop.previous == Some(strike.wrote) && strike.wrote != onTop.wrote
    ensures BothTakenBack(s) ==
            s.(key := Some(strike.wrote), episodes := map[0 := Episode(0, 0, Done), 1 := Episode(0, 0, Done)])
  {
    TakesBackSo(s, 0, strike, 9);
    var s1 := TakenBack(s, 0, 9);
    assert s1 == s.(episodes := map[0 := Episode(0, 0, Done), 1 := Episode(0, 0, Recording(Some(onTop)))]);
    TakesBackSo(s1, 1, onTop, 9);
    assert s1.episodes[1 := Episode(0, 0, Done)] == map[0 := Episode(0, 0, Done), 1 := Episode(0, 0, Done)];
  }

  function BothTakenBack(s: State): State {
    TakenBack(TakenBack(s, 0, 9), 1, 9)
  }

  lemma DoneOwesNothing(s: State)
    requires s.episodes == map[0 := Episode(0, 0, Done), 1 := Episode(0, 0, Done)]
    requires s.conns == map[0 := NewConn().(isOpen := true)]
    ensures NoneOwes(s) && NoClose(s) && (forall e | e in s.episodes :: s.episodes[e].pc.Done?)
  {
  }

  /**
   The condition is needed, from the start: a second strike that lands while the first one's reply is still
   outstanding hides it. Both restarts are called off, the first finds the key changed and the second puts the
   first one's strike back: every episode is over, nothing was rebuilt, and a strike stands.
   */
  lemma OverlapLeavesAStrike(now: int, first: int, second: int)
    requires now >= 0
    ensures var s := BothTakenBack(BothStruck(now, first, second));
            && s.key == Some(Store.Struck(None, first)) && s.ledger == None && s.rebuilt == 0
            && NoneOwes(s) && NoClose(s) && (forall e | e in s.episodes :: s.episodes[e].pc.Done?)
  {
    BothStrikeSo(now, first, second);
    var strike := Strike(None, Store.Struck(None, first));
    var onTop := Strike(Some(strike.wrote), Store.Struck(Some(strike.wrote), second));
    BothTakenBackSo(BothStruck(now, first, second), strike, onTop);
    DoneOwesNothing(BothTakenBack(BothStruck(now, first, second)));
  }

  // ---- and what a late clear costs ----

  // The session ends under its handler, and a successor is up and serving.
  function Ended(s: State): State {
    Step(Step(Step(s, SessionEnds(0, false)), KeyDeleted(0)), Unregistered(0))
  }

  function Succeeded(s: State): State {
    Step(Step(Step(Ended(s), Replaced(1)), SlotFreed), Opened(1))
  }

  lemma EndsSo(s: State)
    requires s.conns.Keys == {0} && s.registered == Some(0) && s.slot == None && !s.conns[0].isDiscarded
    ensures Ended(s) ==
            s.(conns := map[0 := s.conns[0].(sessionEnded := true, isDiscarded := true, closing := false)],
               registered := None, key := None, ledger := None, found := 0, rebuilt := 0)
  {
    var v := s.conns[0].(sessionEnded := true, isDiscarded := true, closing := true);
    var a := Step(s, SessionEnds(0, false));
    assert a.conns == map[0 := v];
    assert Step(a, KeyDeleted(0)).conns == map[0 := v.(closing := false)];
  }

  // A connection spawned where none is registered, up to its being open.
  lemma OpensSo(s: State)
    requires 1 !in s.conns && s.registered == None && s.slot == None
    ensures Step(Step(Step(s, Replaced(1)), SlotFreed), Opened(1)) ==
            s.(conns := s.conns[1 := NewConn().(isOpen := true)], registered := Some(1))
  {
    var a := Step(s, Replaced(1));
    assert a == s.(conns := s.conns[1 := NewConn()], registered := Some(1), slot := Some(SpawnOf(1)));
    assert Step(a, SlotFreed) == a.(slot := None);
  }

  lemma SucceedsSo(s: State)
    requires s.conns.Keys == {0} && s.registered == Some(0) && s.slot == None && !s.conns[0].isDiscarded
    ensures Succeeded(s) ==
            s.(conns := map[0 := s.conns[0].(sessionEnded := true, isDiscarded := true, closing := false),
                            1 := NewConn().(isOpen := true)],
               registered := Some(1), key := None, ledger := None, found := 0, rebuilt := 0)
  {
    EndsSo(s);
    OpensSo(Ended(s));
  }

  // The successor stalls in its turn and is rebuilt.
  function Rebuilt(s: State, clock: int): State {
    Step(Step(Asked(s, 1, 1), StrikeLands(1, clock)), Recorded(1, false, 2))
  }

  function SuccessorRebuilt(now: int, clock: int): State {
    Rebuilt(Succeeded(Asked(Serving(now), 0, 0)), clock)
  }

  // Its episode's strike is the key, and the expected key with it.
  ghost predicate IsRebuilt(s: State, s': State, clock: int) {
    && s'.key == s'.ledger == Some(Store.Struck(s.key, clock)) && s'.rebuilt == s.rebuilt + 1
    && s'.episodes == s.episodes[1 := Episode(1, 0, Done)] && s'.conns.Keys == s.conns.Keys + {2}
    && (forall c | c in s.conns :: s'.conns[c].closing == s.conns[c].closing)
    && (forall c | c in s.conns && c != 1 :: s'.conns[c] == s.conns[c])
    && !s'.conns[2].closing
  }

  lemma StrikeRebuilds(s: State, clock: int)
    requires At(s, 1) && s.episodes[1] == Episode(1, 0, Recording(None)) && 2 !in s.conns
    requires s.registered == Some(1) && s.slot == None && s.conns[1].restartRequested
    requires !s.conns[1].sessionEnded && !s.conns[1].isDiscarded
    ensures IsRebuilt(s, Step(Step(s, StrikeLands(1, clock)), Recorded(1, false, 2)), clock)
  {
    var a := Step(s, StrikeLands(1, clock));
    assert a.episodes[1].pc == Recording(Some(Strike(s.key, Store.Struck(s.key, clock))));
  }

  lemma RebuildsSo(s: State, clock: int)
    requires s.restartEnabled && s.now >= 0 && 1 !in s.episodes
    requires 1 in s.conns && 2 !in s.conns && IsServing(s.conns[1])
    requires s.registered == Some(1) && s.slot == None && s.conns[1].generation == 0
    ensures IsRebuilt(s, Rebuilt(s, clock), clock)
  {
    AsksSo(s, 1, 1);
    StrikeRebuilds(Asked(s, 1, 1), clock);
    AskingSpares(s, Asked(s, 1, 1), Rebuilt(s, clock), clock);
  }

  lemma AskingSpares(s: State, asked: State, s': State, clock: int)
    requires IsRebuilt(asked, s', clock) && 1 in s.conns && asked.key == s.key && asked.rebuilt == s.rebuilt
    requires 1 in asked.conns && asked.conns == s.conns[1 := asked.conns[1]]
    requires asked.conns[1].closing == s.conns[1].closing
    requires 1 in asked.episodes && asked.episodes == s.episodes[1 := asked.episodes[1]]
    ensures IsRebuilt(s, s', clock)
  {
  }

  // An ended session's handler is still asking, its successor has been rebuilt, and nothing else is going on.
  ghost predicate HasSuccessor(s: State, clock: int) {
    && s.key == s.ledger == Some(Store.Struck(None, clock)) && s.rebuilt == 1 && s.conns.Keys == {0, 1, 2}
    && s.episodes == map[0 := Episode(0, 0, Recording(None)), 1 := Episode(1, 0, Done)]
    && s.conns[0].sessionEnded && NoneOwes(s) && NoClose(s)
  }

  lemma RebuiltHasSuccessor(s: State, s': State, clock: int)
    requires IsRebuilt(s, s', clock) && s.conns.Keys == {0, 1} && !s.conns[0].closing && !s.conns[1].closing
    requires s.key == None && s.rebuilt == 0 && s.conns[0].sessionEnded
    requires s.episodes == map[0 := Episode(0, 0, Recording(None))]
    ensures HasSuccessor(s', clock)
  {
    assert s'.conns[0] == s.conns[0];
  }

  lemma SuccessorOf(s: State, clock: int)
    requires s.conns.Keys == {0} && s.registered == Some(0) && s.slot == None && !s.conns[0].isDiscarded
    requires s.restartEnabled && s.now >= 0 && s.episodes == map[0 := Episode(0, 0, Recording(None))]
    ensures HasSuccessor(Rebuilt(Succeeded(s), clock), clock)
  {
    SucceedsSo(s);
    RebuildsSo(Succeeded(s), clock);
    RebuiltHasSuccessor(Succeeded(s), Rebuilt(Succeeded(s), clock), clock);
  }

  lemma SuccessorRebuildsSo(now: int, clock: int)
    requires now >= 0
    ensures HasSuccessor(SuccessorRebuilt(now, clock), clock)
  {
    ServesSo(now);
    AsksSo(Serving(now), 0, 0);
    var s0 := Asked(Serving(now), 0, 0);
    assert s0.episodes == map[0 := Episode(0, 0, Recording(None))] && s0.conns.Keys == {0};
    SuccessorOf(s0, clock);
  }

  // An ended session's strike, when its reply comes, has the key cleared, whoever the key is by then.
  function LateClear(s: State, clock: int): State {
    Step(Step(Step(Step(s, StrikeLands(0, clock)), Recorded(0, false, 9)), UndoLands(0)), Resume(0))
  }

  lemma ClearsLate(s: State, clock: int)
    requires At(s, 0) && s.episodes[0] == Episode(0, 0, Recording(None)) && s.conns[0].sessionEnded && 9 !in s.conns
    ensures var s' := LateClear(s, clock);
            && s'.key == None && s'.ledger == s.ledger && s'.rebuilt == s.rebuilt
            && s'.episodes == s.episodes[0 := Episode(0, 0, Done)]
            && s'.conns == s.conns[0 := s.conns[0].(rollback := None)]
  {
    var a := Step(s, StrikeLands(0, clock));
    assert a.episodes[0].pc.Recording? && a.episodes[0].pc.struck.Some?;
    var b := Step(a, Recorded(0, false, 9));
    assert b.episodes[0].pc == RollingBack(ClearKey, Finish);
    var c := Step(b, UndoLands(0));
    assert c.episodes[0].pc == RollingBack(Nothing, Finish) && c.key == None;
  }

  // Everything is over, a restart was carried out, and no strike stands for it.
  ghost predicate StrikeErased(s: State, clock: int) {
    && s.key == None && s.ledger == Some(Store.Struck(None, clock)) && s.rebuilt == 1
    && NoneOwes(s) && NoClose(s) && (forall e | e in s.episodes :: s.episodes[e].pc.Done?)
  }

  lemma LateClearErases(s: State, clock: int, late: int)
    requires HasSuccessor(s, clock)
    ensures StrikeErased(LateClear(s, late), clock)
  {
    ClearsLate(s, late);
    var s' := LateClear(s, late);
    assert s'.episodes == map[0 := Episode(0, 0, Done), 1 := Episode(1, 0, Done)];
    assert forall c | c in s'.conns :: s'.conns[c].closing == s.conns[c].closing;
  }

  /**
   Nor may an ended session strike after its successor: its handler strikes once the successor has been rebuilt.
   Nothing overlaps and no close is unfinished, and the clear that follows wipes out the successor's strike.
   */
  lemma LateClearErasesAStrike(now: int, clock: int, late: int)
    requires now >= 0
    ensures HasSuccessor(SuccessorRebuilt(now, clock), clock)
    ensures StrikeErased(LateClear(SuccessorRebuilt(now, clock), late), clock)
  {
    SuccessorRebuildsSo(now, clock);
    LateClearErases(SuccessorRebuilt(now, clock), clock, late);
  }

  // The first session is being ended from outside, and a successor is up before its close has deleted the key.
  function Overtaken(s: State): State {
    Step(Step(Step(Step(s, SessionEnds(0, false)), Replaced(1)), SlotFreed), Opened(1))
  }

  lemma TakesOverSo(s: State)
    requires s.conns.Keys == {0} && s.registered == Some(0) && s.slot == None
    ensures Step(Step(Step(s, Replaced(1)), SlotFreed), Opened(1)) ==
            s.(conns := map[0 := Discarded(s.conns[0]), 1 := NewConn().(isOpen := true)], registered := Some(1))
  {
    var a := Step(s, Replaced(1));
    assert a == s.(conns := map[0 := Discarded(s.conns[0]), 1 := NewConn()], registered := Some(1),
                   slot := Some(SpawnOf(1)));
    assert Step(a, SlotFreed) == a.(slot := None);
  }

  lemma OvertakesSo(now: int)
    ensures var v := NewConn().(sessionEnded := true, isDiscarded := true, closing := true);
            Overtaken(Serving(now)) ==
            Boot(true, now, None).(conns := map[0 := v, 1 := NewConn().(isOpen := true)], registered := Some(1))
  {
    ServesSo(now);
    var s := Step(Serving(now), SessionEnds(0, false));
    var v := NewConn().(sessionEnded := true, isDiscarded := true, closing := true, isOpen := true);
    assert s == Boot(true, now, None).(conns := map[0 := v], registered := Some(0));
    TakesOverSo(s);
  }

  lemma CloseErases(s: State, s': State, clock: int)
    requires IsRebuilt(s, s', clock) && s.key == None && s.rebuilt == 0 && s.episodes == map[]
    requires s.conns.Keys == {0, 1} && s.conns[0].closing && !s.conns[1].closing
    ensures StrikeErased(Step(s', KeyDeleted(0)), clock)
  {
    var done := Step(s', KeyDeleted(0));
    assert s'.conns[0].closing && done.conns == s'.conns[0 := s'.conns[0].(closing := false)];
    assert forall c | c in done.conns && c != 0 :: done.conns[c] == s'.conns[c];
  }

  /**
   And a session that goes on may not strike while another one's end is unfinished: the successor stalls and is
   rebuilt before the close before it deletes the key, and its strike goes with the key.
   */
  lemma UnfinishedCloseErasesAStrike(now: int, clock: int)
    requires now >= 0
    ensures StrikeErased(Step(Rebuilt(Overtaken(Serving(now)), clock), KeyDeleted(0)), clock)
  {
    OvertakesSo(now);
    var s := Overtaken(Serving(now));
    RebuildsSo(s, clock);
    CloseErases(s, Rebuilt(s, clock), clock);
  }

  // ---- the handler itself ----

  /** The phone's connections and their handlers; each method is what runs between two awaits. */
  class Watchdog {
    const restartEnabled: bool
    var now: int
    var conns: map<ConnId, Conn>
    var registered: Option<ConnId>
    var slot: Option<Holder>
    var episodes: map<EpisodeId, Episode>
    var key: Option<StallState>
    var ledger: Option<StallState>
    var found: nat
    var rebuilt: nat

    function Now(): State
      reads this
    {
      State(restartEnabled, now, conns, registered, slot, episodes, key, ledger, found, rebuilt)
    }

    constructor (restartEnabled: bool, at: int, key: Option<StallState>)
      ensures Now() == Boot(restartEnabled, at, key)
    {
      this.restartEnabled, now, conns, registered, slot, episodes := restartEnabled, at, map[], None, None, map[];
      this.key, ledger, found, rebuilt := key, key, Store.Restarts(key), 0;
    }

    method Goto(e: EpisodeId, pc: Pc)
      requires e in episodes
      modifies this`episodes
      ensures episodes == old(episodes)[e := old(episodes)[e].(pc := pc)]
    {
      episodes := episodes[e := episodes[e].(pc := pc)];
    }

    method Silence(c: ConnId, until: int)
      requires c in conns
      modifies this`conns
      ensures conns == old(conns)[c := old(conns)[c].(silentUntil := Until(until))]
    {
      conns := conns[c := conns[c].(silentUntil := Until(until))];
    }

    method AbortConn(c: ConnId)
      requires c in conns
      modifies this`conns, this`registered
      ensures Now() == Evict(SetConn(old(Now()), c, Discarded(old(conns)[c])), c)
    {
      conns := conns[c := conns[c].(isDiscarded := true, isOpen := false)];
      if registered == Some(c) {
        registered := None;
      }
    }

    method MaybeReportSendStall(e: EpisodeId, c: ConnId)
      requires e !in episodes && c in conns
      modifies this
      ensures Now() == Step(old(Now()), Launch(e, c))
    {
      var v := conns[c];
      if v.silentUntil.Forever? || now < v.silentUntil.at || v.streakStartedAt.None? {
        return;
      }
      if v.consecutive < SEND_STALL_THRESHOLD || now - v.streakStartedAt.value < SEND_STALL_MIN_DURATION_MS {
        return;
      }
      if !v.isOpen || v.isDiscarded || v.restartRequested {
        return;
      }
      conns := conns[c := v.(silentUntil := Forever)];
      episodes := episodes[e := Episode(c, v.generation, if restartEnabled then Lookup else Done)];
    }

    method AfterLookup(e: EpisodeId, reply: Lookup)
      requires At(Now(), e) && episodes[e].pc.Lookup?
      modifies this
      ensures Now() == Step(old(Now()), LookupDone(e, reply))
    {
      HandlerEventIsHandlerStep(Now(), LookupDone(e, reply));
      var c := episodes[e].conn;
      var current := IsCurrent(conns[c], episodes[e].generation);
      if reply.LookupFailed? {
        Silence(c, if current then now + COOLDOWN_MS else 0);
        Goto(e, Done);
      } else if !current {
        Silence(c, 0);
        Goto(e, Done);
      } else if reply.ownedElsewhere {
        AbortConn(c);
        Goto(e, Done);
      } else if !reply.mayRestart {
        Goto(e, NextAllowed);
        assert conns == conns[c := conns[c]];
      } else if !reply.slotFree {
        Silence(c, 0);
        Goto(e, Done);
      } else {
        conns := conns[c := conns[c].(restartRequested := true)];
        Goto(e, Recording(None));
      }
    }

    method AfterNextAllowed(e: EpisodeId, next: NextRead)
      requires At(Now(), e) && episodes[e].pc.NextAllowed?
      modifies this
      ensures Now() == Step(old(Now()), NextDone(e, next))
    {
      HandlerEventIsHandlerStep(Now(), NextDone(e, next));
      var c := episodes[e].conn;
      var current := IsCurrent(conns[c], episodes[e].generation);
      var until := 0;
      if current {
        match next {
          case NextFailed => until := now + COOLDOWN_MS;
          case NextIs(allowedAt) =>
            if allowedAt.Some? {
              until := allowedAt.value;
            }
        }
      }
      Silence(c, until);
      Goto(e, Done);
    }

    method RollBackStallStrike(e: EpisodeId, next: Then)
      requires At(Now(), e)
      modifies this`conns, this`episodes
      ensures Now() == RollBack(old(Now()), e, old(conns)[old(episodes)[e].conn], next)
    {
      var c := episodes[e].conn;
      var rollback := conns[c].rollback;
      conns := conns[c := conns[c].(rollback := None)];
      if rollback.None? {
        Goto(e, RollingBack(Nothing, next));
      } else if conns[c].sessionEnded {
        Goto(e, RollingBack(ClearKey, next));
      } else {
        Goto(e, RollingBack(Restore(rollback.value), next));
      }
    }

    method AfterRecord(e: EpisodeId, ownedElsewhere: bool, spawned: ConnId)
      requires At(Now(), e) && episodes[e].pc.Recording? && episodes[e].pc.struck.Some? && spawned !in conns
      modifies this
      ensures Now() == Step(old(Now()), Recorded(e, ownedElsewhere, spawned))
    {
      HandlerEventIsHandlerStep(Now(), Recorded(e, ownedElsewhere, spawned));
      var c := episodes[e].conn;
      conns := conns[c := conns[c].(rollback := episodes[e].pc.struck)];
      if conns[c].sessionEnded {
        conns := conns[c := conns[c].(rollback := None)];
        Goto(e, RollingBack(ClearKey, Finish));
      } else if conns[c].isDiscarded {
        RollBackStallStrike(e, Finish);
      } else if ownedElsewhere {
        RollBackStallStrike(e, Abort);
      } else if !conns[c].restartRequested {
        RollBackStallStrike(e, Finish);
      } else {
        Goto(e, Requested);
        if slot.None? {
          PastTheSlot(e, spawned);
        }
      }
    }

    method AfterRecordFailure(e: EpisodeId)
      requires At(Now(), e) && episodes[e].pc.Recording?
      modifies this
      ensures Now() == Step(old(Now()), RecordFails(e))
    {
      HandlerEventIsHandlerStep(Now(), RecordFails(e));
      var c := episodes[e].conn;
      conns := conns[c := conns[c].(restartRequested := false)];
      if !IsCurrent(conns[c], episodes[e].generation) {
        Silence(c, 0);
      } else {
        Silence(c, now + COOLDOWN_MS);
      }
      Goto(e, Done);
    }

    method AfterUndo(e: EpisodeId)
      requires At(Now(), e) && episodes[e].pc.RollingBack? && episodes[e].pc.undo.Nothing?
      modifies this
      ensures Now() == Step(old(Now()), Resume(e))
    {
      HandlerEventIsHandlerStep(Now(), Resume(e));
      var c := episodes[e].conn;
      if episodes[e].pc.next.Abort? {
        AbortConn(c);
      }
      Goto(e, Done);
      assert conns == conns[c := conns[c]];
    }

    // connect() past the drain: the handler's `stillOurs`, and withdrawStallRestart when it vetoes.
    method PastTheSlot(e: EpisodeId, spawned: ConnId)
      requires At(Now(), e) && spawned !in conns
      modifies this
      ensures Now() == SlotStep(old(Now()), e, old(conns)[old(episodes)[e].conn], spawned)
    {
      var c := episodes[e].conn;
      if registered == Some(c) && conns[c].restartRequested {
        if !conns[c].sessionEnded {
          ledger, rebuilt := key, rebuilt + 1;
        }
        conns := conns[c := Discarded(conns[c])][spawned := NewConn()];
        registered, slot := Some(spawned), Some(SpawnOf(spawned));
        Goto(e, Done);
      } else {
        conns := conns[c := conns[c].(restartRequested := false)];
        RollBackStallStrike(e, Finish);
      }
    }

    method AfterSlotDrained(e: EpisodeId, spawned: ConnId)
      requires At(Now(), e) && episodes[e].pc.Requested? && slot.None? && spawned !in conns
      modifies this
      ensures Now() == Step(old(Now()), SlotDrained(e, spawned))
    {
      HandlerEventIsHandlerStep(Now(), SlotDrained(e, spawned));
      PastTheSlot(e, spawned);
    }
  }
}
