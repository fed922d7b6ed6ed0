/**
 BaileysConnectionsHandler: which connection object is registered for each phone, and the per-phone
 slot that serializes connect, restart, discard and logout. Everything between two awaits is one step;
 a connection may drop its socket, reconnect, abort itself or be logged out remotely at any point.
 */
module ConnectionsHandler {
  type Phone = string
  type ConnId = nat
  type JobId = nat
  type OpId = nat

  // `closing`: logout() or a remote loggedOut has begun on it; its socket reference goes when that ends.
  datatype Connection = Connection(phone: Phone, isDiscarded: bool, closing: bool, socket: bool, restartPending: bool)

  // One running call of BaileysConnection.connect().
  datatype Phase = LoadingAuth | FetchingVersion | Returned | Rejected
  datatype Job = Job(conn: ConnId, phase: Phase)

  datatype Goal =
    | Connect                  // connect() with options, or with a resolver supplied by the coordinator
    | Restart(conn: ConnId)    // requestRestart: connect() with the `stillOurs` resolver
    | Discard
    | Logout
    | LogoutOf(conn: ConnId)   // requestLogout: wrong phone number

  datatype Pc =
    | Waiting
    | Updating(existing: ConnId)
    | Probing(existing: ConnId)
    | Spawning(conn: ConnId, job: JobId)
    | LoggingOut(conn: ConnId)
    | Deregistering(conn: ConnId)
    | Leaving
    | Done

  datatype Op = Op(phone: Phone, goal: Goal, pc: Pc)

  datatype State = State(
    connections: map<Phone, ConnId>,
    inFlightOps: map<Phone, OpId>,
    conns: map<ConnId, Connection>,   // every connection object ever created
    jobs: map<JobId, Job>,
    ops: map<OpId, Op>
  )

  // What the options argument resolves to after the drain.
  datatype Verdict = Veto | Options(forceRestart: bool)

  datatype Event =
    | Call(op: OpId, phone: Phone, goal: Goal)
    | Decide(op: OpId, verdict: Verdict, conn: ConnId, job: JobId)
    | Updated(op: OpId, ok: bool)
    | Probed(op: OpId)
    | SpawnSettled(op: OpId)
    | Enter(op: OpId)
    | LogoutClosed(op: OpId)
    | Deregister(op: OpId)
    | Leave(op: OpId)
    | AuthLoaded(job: JobId, ok: bool)
    | VersionFetched(job: JobId, built: bool)
    | SocketDropped(conn: ConnId)
    | Reconnect(conn: ConnId, job: JobId)
    | ReconnectFailed(job: JobId)
    | SelfAbort(conn: ConnId)
    | RemoteLogout(conn: ConnId)
    | RemoteLogoutClosed(conn: ConnId)
    | StallFlag(conn: ConnId, pending: bool)

  predicate InSlot(pc: Pc) {
    pc.Spawning? || pc.LoggingOut? || pc.Deregistering? || pc.Leaving?
  }

  predicate IsAt(s: State, op: OpId, waiting: bool) {
    op in s.ops && (if waiting then s.ops[op].pc.Waiting? && s.ops[op].phone !in s.inFlightOps else true)
  }

  // BaileysConnection.discard(): disowns the object once, and ends its socket.
  function Discarded(c: Connection): Connection {
    if c.isDiscarded then c else c.(isDiscarded := true, socket := false)
  }

  function DiscardConn(s: State, c: ConnId): State
    requires c in s.conns
  {
    s.(conns := s.conns[c := Discarded(s.conns[c])])
  }

  // The synchronous part of logout() and close(): disowned, but the socket reference stays until it ends.
  function Close(s: State, c: ConnId): State
    requires c in s.conns
  {
    s.(conns := s.conns[c := s.conns[c].(isDiscarded := true, closing := true)])
  }

  predicate IsRegistered(s: State, c: ConnId) {
    c in s.conns && s.conns[c].phone in s.connections && s.connections[s.conns[c].phone] == c
  }

  // onConnectionClose: only clears the entry that still points at this connection.
  function Evict(s: State, c: ConnId): State {
    if IsRegistered(s, c) then s.(connections := s.connections - {s.conns[c].phone}) else s
  }

  // discard() plus dropping the entry if it still points at this connection.
  function Retire(s: State, c: ConnId): State
    requires c in s.conns
  {
    DiscardConn(Evict(s, c), c)
  }

  function Goto(s: State, op: OpId, pc: Pc): State
    requires op in s.ops
  {
    s.(ops := s.ops[op := s.ops[op].(pc := pc)])
  }

  // The end of close(): the socket reference goes, then onConnectionClose.
  function EndClose(s: State, c: ConnId): State
    requires c in s.conns
  {
    Evict(s.(conns := s.conns[c := s.conns[c].(socket := false)]), c)
  }

  // From the slot being free to connection.connect()'s first await: nothing else can run in between.
  function Spawn(s: State, op: OpId, c: ConnId, j: JobId): State
    requires op in s.ops
    requires s.ops[op].phone in s.connections ==> s.connections[s.ops[op].phone] in s.conns
  {
    var phone := s.ops[op].phone;
    var s1 := if phone in s.connections then DiscardConn(s, s.connections[phone]) else s;
    Goto(s1.(inFlightOps := s1.inFlightOps[phone := op],
             conns := s1.conns[c := Connection(phone, false, false, false, false)],
             jobs := s1.jobs[j := Job(c, LoadingAuth)],
             connections := s1.connections[phone := c]),
         op, Spawning(c, j))
  }

  function DecideStep(s: State, op: OpId, verdict: Verdict, c: ConnId, j: JobId): State
    requires op in s.ops
    requires s.ops[op].phone in s.connections ==> s.connections[s.ops[op].phone] in s.conns
  {
    var phone := s.ops[op].phone;
    var vetoed := if s.ops[op].goal.Restart?
                  then !(phone in s.connections && s.connections[phone] == s.ops[op].goal.conn
                         && s.conns[s.connections[phone]].restartPending)
                  else verdict.Veto?;
    if vetoed then Goto(s, op, Done)
    else if phone !in s.connections then Spawn(s, op, c, j)
    else
      var existing := s.connections[phone];
      if s.ops[op].goal.Restart? || verdict == Options(true) then
        Spawn(Retire(s, existing), op, c, j)
      else Goto(s, op, Updating(existing))
  }

  function TakeSlot(s: State, op: OpId): State
    requires op in s.ops
  {
    Goto(s.(inFlightOps := s.inFlightOps[s.ops[op].phone := op]), op, Leaving)
  }

  // withInFlightOp has the slot: run what discardConnection, logout or requestLogout do up to their first await.
  function EnterStep(s: State, op: OpId): State
    requires op in s.ops
    requires s.ops[op].phone in s.connections ==> s.connections[s.ops[op].phone] in s.conns
  {
    var phone := s.ops[op].phone;
    var s1 := TakeSlot(s, op);
    if phone !in s.connections then s1
    else
      var c := s.connections[phone];
      match s.ops[op].goal
      case Discard => Retire(s1, c)
      case LogoutOf(mine) => if c != mine then s1 else Goto(Close(s1, c), op, LoggingOut(c))
      case _ => Goto(Close(s1, c), op, LoggingOut(c))
  }

  function UpdatedStep(s: State, op: OpId, existing: ConnId, ok: bool): State
    requires op in s.ops && existing in s.conns
  {
    if !ok then Goto(s, op, Done)
    else if s.conns[existing].socket then Goto(s, op, Probing(existing))
    // BaileysNotConnectedError: evict it if it is still the entry, then decide again.
    else if IsRegistered(s, existing) then Goto(Retire(s, existing), op, Waiting)
    else Goto(s, op, Waiting)
  }

  function SpawnSettledStep(s: State, op: OpId, c: ConnId, j: JobId): State
    requires op in s.ops && c in s.conns && j in s.jobs
  {
    match s.jobs[j].phase
    case Returned => Goto(s, op, Leaving)
    case Rejected => Goto(Retire(s, c), op, Leaving)
    case _ => s
  }

  function JobStep(s: State, j: JobId, phase: Phase): State
    requires j in s.jobs
  {
    s.(jobs := s.jobs[j := s.jobs[j].(phase := phase)])
  }

  function VersionFetchedStep(s: State, j: JobId, built: bool): State
    requires j in s.jobs && s.jobs[j].conn in s.conns
  {
    var c := s.jobs[j].conn;
    if s.conns[c].isDiscarded then JobStep(s, j, Returned)
    else if built then JobStep(s.(conns := s.conns[c := s.conns[c].(socket := true)]), j, Returned)
    else JobStep(s, j, Rejected)
  }

  // An event whose guard does not hold changes nothing, so every sequence of events is a run.
  function Step(s: State, e: Event): State {
    match e
    case Call(op, phone, goal) =>
      if op in s.ops then s else s.(ops := s.ops[op := Op(phone, goal, Waiting)])
    case Decide(op, verdict, c, j) =>
      if IsAt(s, op, true) && (s.ops[op].goal.Connect? || s.ops[op].goal.Restart?) && c !in s.conns && j !in s.jobs
         && (s.ops[op].phone in s.connections ==> s.connections[s.ops[op].phone] in s.conns)
      then DecideStep(s, op, verdict, c, j) else s
    case Updated(op, ok) =>
      if op in s.ops && s.ops[op].pc.Updating? && s.ops[op].pc.existing in s.conns
      then UpdatedStep(s, op, s.ops[op].pc.existing, ok) else s
    case Probed(op) =>
      if op in s.ops && s.ops[op].pc.Probing? then Goto(s, op, Done) else s
    case SpawnSettled(op) =>
      if op in s.ops && s.ops[op].pc.Spawning? && s.ops[op].pc.conn in s.conns && s.ops[op].pc.job in s.jobs
      then SpawnSettledStep(s, op, s.ops[op].pc.conn, s.ops[op].pc.job) else s
    case Enter(op) =>
      if IsAt(s, op, true) && (s.ops[op].goal.Discard? || s.ops[op].goal.Logout? || s.ops[op].goal.LogoutOf?)
         && (s.ops[op].phone in s.connections ==> s.connections[s.ops[op].phone] in s.conns)
      then EnterStep(s, op) else s
    case LogoutClosed(op) =>
      if op in s.ops && s.ops[op].pc.LoggingOut? && s.ops[op].pc.conn in s.conns then
        var c := s.ops[op].pc.conn;
        Goto(EndClose(s, c), op, Deregistering(c))
      else s
    case Deregister(op) =>
      if op in s.ops && s.ops[op].pc.Deregistering?
      then Goto(s.(connections := s.connections - {s.ops[op].phone}), op, Leaving) else s
    case Leave(op) =>
      if op in s.ops && s.ops[op].pc.Leaving? then
        var phone := s.ops[op].phone;
        var ours := phone in s.inFlightOps && s.inFlightOps[phone] == op;
        Goto(if ours then s.(inFlightOps := s.inFlightOps - {phone}) else s, op, Done)
      else s
    case AuthLoaded(j, ok) =>
      if j in s.jobs && s.jobs[j].phase.LoadingAuth? && s.jobs[j].conn in s.conns
      then JobStep(s, j, if !ok then Rejected
                         else if s.conns[s.jobs[j].conn].isDiscarded then Returned else FetchingVersion)
      else s
    case VersionFetched(j, built) =>
      if j in s.jobs && s.jobs[j].phase.FetchingVersion? && s.jobs[j].conn in s.conns
      then VersionFetchedStep(s, j, built) else s
    case SocketDropped(c) =>
      if c in s.conns then s.(conns := s.conns[c := s.conns[c].(socket := false)]) else s
    case Reconnect(c, j) =>
      if c in s.conns && j !in s.jobs && !s.conns[c].isDiscarded && !s.conns[c].socket
      then s.(jobs := s.jobs[j := Job(c, LoadingAuth)]) else s
    case ReconnectFailed(j) =>
      if j in s.jobs && s.jobs[j].phase.Rejected? && s.jobs[j].conn in s.conns && !s.conns[s.jobs[j].conn].isDiscarded
      then Retire(s, s.jobs[j].conn) else s
    case SelfAbort(c) =>
      if c in s.conns && !s.conns[c].isDiscarded then Retire(s, c) else s
    case RemoteLogout(c) =>
      if c in s.conns && !s.conns[c].isDiscarded
      then Close(s, c) else s
    case RemoteLogoutClosed(c) =>
      if c in s.conns && s.conns[c].closing
      then EndClose(s, c) else s
    case StallFlag(c, pending) =>
      if c in s.conns then s.(conns := s.conns[c := s.conns[c].(restartPending := pending)]) else s
  }

  function Run(s: State, es: seq<Event>): State
    decreases |es|
  {
    if es == [] then s else Run(Step(s, es[0]), es[1..])
  }

  function Boot(): State { State(map[], map[], map[], map[], map[]) }

  // ---- the invariant ----

  // The heart of it: a connection nobody has disowned is the one registered for its phone.
  ghost predicate LiveIsRegistered(s: State) {
    forall c | c in s.conns && !s.conns[c].isDiscarded :: IsRegistered(s, c)
  }

  ghost predicate RegistryOk(s: State) {
    && (forall p | p in s.connections :: s.connections[p] in s.conns && s.conns[s.connections[p]].phone == p)
    && (forall c | c in s.conns && s.conns[c].socket && s.conns[c].isDiscarded :: s.conns[c].closing)
    && (forall c | c in s.conns && s.conns[c].closing :: s.conns[c].isDiscarded)
    && (forall j | j in s.jobs :: s.jobs[j].conn in s.conns)
  }

  // A slot has exactly one holder, and every operation in its critical section holds its phone's slot.
  ghost predicate SlotsOk(s: State) {
    && (forall p | p in s.inFlightOps ::
          s.inFlightOps[p] in s.ops && s.ops[s.inFlightOps[p]].phone == p && InSlot(s.ops[s.inFlightOps[p]].pc))
    && (forall op | op in s.ops && InSlot(s.ops[op].pc) ::
          s.ops[op].phone in s.inFlightOps && s.inFlightOps[s.ops[op].phone] == op)
  }

  ghost predicate OpOk(s: State, o: Op) {
    match o.pc
    case Updating(c) => c in s.conns
    case Probing(c) => c in s.conns
    case Spawning(c, j) => c in s.conns && s.conns[c].phone == o.phone && j in s.jobs && s.jobs[j].conn == c
    case LoggingOut(c) => LogoutOk(s, o, c)
    case Deregistering(c) => LogoutOk(s, o, c)
    case _ => true
  }

  // While a logout holds the slot nothing else can be registered, so its unconditional delete is safe.
  ghost predicate LogoutOk(s: State, o: Op, c: ConnId) {
    && c in s.conns && s.conns[c].phone == o.phone && s.conns[c].isDiscarded
    && (o.phone in s.connections ==> s.connections[o.phone] == c)
  }

  ghost predicate Inv(s: State) {
    LiveIsRegistered(s) && RegistryOk(s) && SlotsOk(s) && OpsOk(s)
  }

  ghost predicate OpsOk(s: State) {
    forall op | op in s.ops :: OpOk(s, s.ops[op])
  }

  lemma RetireKeepsRegistry(s: State, c: ConnId)
    requires LiveIsRegistered(s) && RegistryOk(s) && c in s.conns
    ensures LiveIsRegistered(Retire(s, c)) && RegistryOk(Retire(s, c))
    ensures IsRegistered(s, c) ==> s.conns[c].phone !in Retire(s, c).connections
  {
  }

  lemma RetireKeepsOps(s: State, c: ConnId)
    requires SlotsOk(s) && OpsOk(s) && c in s.conns
    ensures SlotsOk(Retire(s, c)) && OpsOk(Retire(s, c))
  {
    var s' := Retire(s, c);
    assert s'.ops == s.ops && s'.inFlightOps == s.inFlightOps && s'.jobs == s.jobs;
    forall o | o in s.ops
      ensures OpOk(s', s.ops[o])
    {
      assert OpOk(s, s.ops[o]);
    }
  }

  lemma RetireKeepsInv(s: State, c: ConnId)
    requires Inv(s) && c in s.conns
    ensures Inv(Retire(s, c))
    ensures IsRegistered(s, c) ==> s.conns[c].phone !in Retire(s, c).connections
  {
    RetireKeepsRegistry(s, c);
    RetireKeepsOps(s, c);
  }

  // Moving an operation without entering or leaving the slot.
  lemma GotoKeepsInv(s: State, op: OpId, pc: Pc)
    requires Inv(s) && op in s.ops && InSlot(pc) == InSlot(s.ops[op].pc)
    requires OpOk(s, s.ops[op].(pc := pc))
    ensures Inv(Goto(s, op, pc))
  {
  }

  lemma SpawnKeepsRegistry(s: State, op: OpId, c: ConnId, j: JobId)
    requires LiveIsRegistered(s) && RegistryOk(s) && op in s.ops && s.ops[op].phone !in s.connections
    requires c !in s.conns && j !in s.jobs
    ensures LiveIsRegistered(Spawn(s, op, c, j)) && RegistryOk(Spawn(s, op, c, j))
  {
  }

  lemma SpawnKeepsSlots(s: State, op: OpId, c: ConnId, j: JobId)
    requires SlotsOk(s) && IsAt(s, op, true) && s.ops[op].phone !in s.connections
    ensures SlotsOk(Spawn(s, op, c, j))
  {
  }

  lemma SpawnKeepsOps(s: State, op: OpId, c: ConnId, j: JobId)
    requires SlotsOk(s) && OpsOk(s) && IsAt(s, op, true) && s.ops[op].phone !in s.connections
    requires c !in s.conns && j !in s.jobs
    ensures OpsOk(Spawn(s, op, c, j))
  {
    var s' := Spawn(s, op, c, j);
    assert s'.ops == s.ops[op := s.ops[op].(pc := Spawning(c, j))];
    forall o | o in s.ops && o != op
      ensures OpOk(s', s'.ops[o])
    {
      assert OpOk(s, s.ops[o]) && (InSlot(s.ops[o].pc) ==> s.ops[o].phone != s.ops[op].phone);
    }
  }

  lemma SpawnKeepsInv(s: State, op: OpId, c: ConnId, j: JobId)
    requires Inv(s) && IsAt(s, op, true) && s.ops[op].phone !in s.connections && c !in s.conns && j !in s.jobs
    ensures Inv(Spawn(s, op, c, j))
  {
    SpawnKeepsRegistry(s, op, c, j);
    SpawnKeepsSlots(s, op, c, j);
    SpawnKeepsOps(s, op, c, j);
  }

  lemma DecideKeepsInv(s: State, op: OpId, verdict: Verdict, c: ConnId, j: JobId)
    requires Inv(s) && IsAt(s, op, true) && c !in s.conns && j !in s.jobs
    ensures Inv(DecideStep(s, op, verdict, c, j))
  {
    var phone := s.ops[op].phone;
    var s' := DecideStep(s, op, verdict, c, j);
    if s' == Goto(s, op, Done) {
      GotoKeepsInv(s, op, Done);
    } else if phone !in s.connections {
      SpawnKeepsInv(s, op, c, j);
    } else {
      var existing := s.connections[phone];
      if s' == Goto(s, op, Updating(existing)) {
        GotoKeepsInv(s, op, Updating(existing));
      } else {
        RetireKeepsInv(s, existing);
        SpawnKeepsInv(Retire(s, existing), op, c, j);
      }
    }
  }

  lemma TakeSlotKeepsInv(s: State, op: OpId)
    requires Inv(s) && IsAt(s, op, true)
    ensures Inv(TakeSlot(s, op))
  {
    var s' := TakeSlot(s, op);
    assert forall o | o in s.ops :: OpOk(s, s.ops[o]);
    assert SlotsOk(s');
  }

  // A connection object changes; it may only move towards being disowned.
  ghost predicate Ages(v: Connection, v': Connection) {
    && v'.phone == v.phone && (v.isDiscarded ==> v'.isDiscarded)
    && (v'.socket && v'.isDiscarded ==> v'.closing) && (v'.closing ==> v'.isDiscarded)
  }

  lemma ConnChangeKeepsRegistry(s: State, c: ConnId, v: Connection)
    requires LiveIsRegistered(s) && RegistryOk(s) && c in s.conns && Ages(s.conns[c], v)
    ensures LiveIsRegistered(s.(conns := s.conns[c := v])) && RegistryOk(s.(conns := s.conns[c := v]))
  {
  }

  lemma ConnChangeKeepsInv(s: State, c: ConnId, v: Connection)
    requires Inv(s) && c in s.conns && Ages(s.conns[c], v)
    ensures Inv(s.(conns := s.conns[c := v]))
  {
    ConnChangeKeepsRegistry(s, c, v);
    assert forall o | o in s.ops :: OpOk(s, s.ops[o]);
  }

  lemma JobStepKeepsInv(s: State, j: JobId, phase: Phase)
    requires Inv(s) && j in s.jobs
    ensures Inv(JobStep(s, j, phase))
  {
  }

  lemma CloseKeepsInv(s: State, op: OpId, c: ConnId)
    requires Inv(s) && op in s.ops && s.ops[op].pc.Leaving? && IsRegistered(s, c) && s.conns[c].phone == s.ops[op].phone
    ensures Inv(Goto(Close(s, c), op, LoggingOut(c)))
  {
    ConnChangeKeepsInv(s, c, s.conns[c].(isDiscarded := true, closing := true));
    GotoKeepsInv(Close(s, c), op, LoggingOut(c));
  }

  lemma EnterKeepsInv(s: State, op: OpId)
    requires Inv(s) && IsAt(s, op, true)
    ensures Inv(EnterStep(s, op))
  {
    TakeSlotKeepsInv(s, op);
    var phone := s.ops[op].phone;
    if phone in s.connections {
      var c := s.connections[phone];
      if s.ops[op].goal.Discard? {
        RetireKeepsInv(TakeSlot(s, op), c);
      } else if !(s.ops[op].goal.LogoutOf? && s.ops[op].goal.conn != c) {
        CloseKeepsInv(TakeSlot(s, op), op, c);
      }
    }
  }

  lemma UpdatedKeepsInv(s: State, op: OpId, existing: ConnId, ok: bool)
    requires Inv(s) && op in s.ops && s.ops[op].pc == Updating(existing) && existing in s.conns
    ensures Inv(UpdatedStep(s, op, existing, ok))
  {
    RetireKeepsInv(s, existing);
    GotoKeepsInv(s, op, Done);
    GotoKeepsInv(s, op, Waiting);
    GotoKeepsInv(s, op, Probing(existing));
    GotoKeepsInv(Retire(s, existing), op, Waiting);
  }

  lemma SpawnSettledKeepsInv(s: State, op: OpId, c: ConnId, j: JobId)
    requires Inv(s) && op in s.ops && s.ops[op].pc == Spawning(c, j) && c in s.conns && j in s.jobs
    ensures Inv(SpawnSettledStep(s, op, c, j))
  {
    RetireKeepsInv(s, c);
    GotoKeepsInv(s, op, Leaving);
    GotoKeepsInv(Retire(s, c), op, Leaving);
  }

  lemma EvictKeepsInv(s: State, c: ConnId)
    requires Inv(s) && c in s.conns && s.conns[c].isDiscarded
    ensures Inv(Evict(s, c))
  {
  }

  lemma EndCloseKeepsInv(s: State, c: ConnId)
    requires Inv(s) && c in s.conns && s.conns[c].isDiscarded
    ensures Inv(EndClose(s, c))
  {
    ConnChangeKeepsInv(s, c, s.conns[c].(socket := false));
    EvictKeepsInv(s.(conns := s.conns[c := s.conns[c].(socket := false)]), c);
  }

  lemma LogoutClosedKeepsInv(s: State, op: OpId)
    requires Inv(s) && op in s.ops && s.ops[op].pc.LoggingOut?
    ensures Inv(Step(s, LogoutClosed(op)))
  {
    var c := s.ops[op].pc.conn;
    assert OpOk(s, s.ops[op]);
    EndCloseKeepsInv(s, c);
    var s1 := EndClose(s, c);
    assert OpOk(s1, s1.ops[op]);
    GotoKeepsInv(s1, op, Deregistering(c));
  }

  // Under the logout's slot only the disowned connection itself can still be the entry that goes.
  lemma DeregisterKeepsInv(s: State, op: OpId)
    requires Inv(s) && op in s.ops && s.ops[op].pc.Deregistering?
    ensures Inv(Step(s, Deregister(op)))
  {
    var phone, c := s.ops[op].phone, s.ops[op].pc.conn;
    assert OpOk(s, s.ops[op]) && LogoutOk(s, s.ops[op], c);
    if phone in s.connections {
      assert s.connections[phone] == c;
      EvictKeepsInv(s, c);
      assert Evict(s, c).connections == s.connections - {phone};
    } else {
      assert s.connections - {phone} == s.connections;
    }
    var s1 := s.(connections := s.connections - {phone});
    assert Inv(s1);
    GotoKeepsInv(s1, op, Leaving);
  }

  lemma LeaveKeepsSlots(s: State, op: OpId)
    requires SlotsOk(s)
    ensures SlotsOk(Step(s, Leave(op)))
  {
  }

  lemma LeaveKeepsInv(s: State, op: OpId)
    requires Inv(s)
    ensures Inv(Step(s, Leave(op)))
  {
    var s' := Step(s, Leave(op));
    LeaveKeepsSlots(s, op);
    assert s'.conns == s.conns && s'.connections == s.connections && s'.jobs == s.jobs;
    forall o | o in s'.ops
      ensures OpOk(s', s'.ops[o])
    {
      assert OpOk(s, s.ops[o]);
    }
  }

  lemma VersionFetchedKeepsInv(s: State, j: JobId, built: bool)
    requires Inv(s) && j in s.jobs && s.jobs[j].conn in s.conns
    ensures Inv(VersionFetchedStep(s, j, built))
  {
    var c := s.jobs[j].conn;
    if built && !s.conns[c].isDiscarded {
      ConnChangeKeepsInv(s, c, s.conns[c].(socket := true));
      JobStepKeepsInv(s.(conns := s.conns[c := s.conns[c].(socket := true)]), j, Returned);
    } else {
      JobStepKeepsInv(s, j, if s.conns[c].isDiscarded then Returned else Rejected);
    }
  }

  lemma ReconnectKeepsInv(s: State, c: ConnId, j: JobId)
    requires Inv(s)
    ensures Inv(Step(s, Reconnect(c, j)))
  {
  }

  lemma JobEventKeepsInv(s: State, e: Event)
    requires Inv(s) && Step(s, e) != s && (e.AuthLoaded? || e.VersionFetched? || e.Reconnect? || e.ReconnectFailed?)
    ensures Inv(Step(s, e))
  {
    match e {
      case AuthLoaded(j, _) => JobStepKeepsInv(s, j, Step(s, e).jobs[j].phase);
      case VersionFetched(j, built) => VersionFetchedKeepsInv(s, j, built);
      case Reconnect(c, j) => ReconnectKeepsInv(s, c, j);
      case ReconnectFailed(j) => RetireKeepsInv(s, s.jobs[j].conn);
    }
  }

  lemma ConnectionEventKeepsInv(s: State, e: Event)
    requires Inv(s) && Step(s, e) != s
    requires e.SocketDropped? || e.SelfAbort? || e.RemoteLogout? || e.RemoteLogoutClosed? || e.StallFlag?
    ensures Inv(Step(s, e))
  {
    match e {
      case SocketDropped(c) => ConnChangeKeepsInv(s, c, s.conns[c].(socket := false));
      case SelfAbort(c) => RetireKeepsInv(s, c);
      case RemoteLogout(c) => ConnChangeKeepsInv(s, c, s.conns[c].(isDiscarded := true, closing := true));
      case RemoteLogoutClosed(c) => EndCloseKeepsInv(s, c);
      case StallFlag(c, pending) => ConnChangeKeepsInv(s, c, s.conns[c].(restartPending := pending));
    }
  }

  lemma OpEventKeepsInv(s: State, e: Event)
    requires Inv(s) && Step(s, e) != s
    requires e.Updated? || e.Probed? || e.SpawnSettled? || e.LogoutClosed? || e.Deregister? || e.Leave?
    ensures Inv(Step(s, e))
  {
    match e {
      case Updated(op, ok) => UpdatedKeepsInv(s, op, s.ops[op].pc.existing, ok);
      case Probed(op) => GotoKeepsInv(s, op, Done);
      case SpawnSettled(op) => SpawnSettledKeepsInv(s, op, s.ops[op].pc.conn, s.ops[op].pc.job);
      case LogoutClosed(op) => LogoutClosedKeepsInv(s, op);
      case Deregister(op) => DeregisterKeepsInv(s, op);
      case Leave(op) => LeaveKeepsInv(s, op);
    }
  }

  lemma StepKeepsInv(s: State, e: Event)
    requires Inv(s)
    ensures Inv(Step(s, e))
  {
    if Step(s, e) == s {
    } else if e.Call? {
    } else if e.Decide? {
      DecideKeepsInv(s, e.op, e.verdict, e.conn, e.job);
    } else if e.Enter? {
      EnterKeepsInv(s, e.op);
    } else if e.AuthLoaded? || e.VersionFetched? || e.Reconnect? || e.ReconnectFailed? {
      JobEventKeepsInv(s, e);
    } else if e.SocketDropped? || e.SelfAbort? || e.RemoteLogout? || e.RemoteLogoutClosed? || e.StallFlag? {
      ConnectionEventKeepsInv(s, e);
    } else {
      OpEventKeepsInv(s, e);
    }
  }

  lemma {:induction false} RunKeepsInv(s: State, es: seq<Event>)
    requires Inv(s)
    ensures Inv(Run(s, es))
    decreases |es|
  {
    if es != [] {
      StepKeepsInv(s, es[0]);
      RunKeepsInv(Step(s, es[0]), es[1..]);
    }
  }

  // ---- what it buys ----

  /** In every interleaving, any connection not disowned is the registered one, so a phone never has two. */
  lemma OneLiveConnection(es: seq<Event>)
    ensures var s := Run(Boot(), es);
            && (forall c | c in s.conns && !s.conns[c].isDiscarded :: IsRegistered(s, c))
            && (forall c, d | c in s.conns && d in s.conns && !s.conns[c].isDiscarded && !s.conns[d].isDiscarded
                                && s.conns[c].phone == s.conns[d].phone :: c == d)
            && (forall c | c in s.conns && s.conns[c].socket :: IsRegistered(s, c) || s.conns[c].closing)
  {
    assert Inv(Boot());
    RunKeepsInv(Boot(), es);
  }

  // One object, and then all of them: never un-disowned, and gaining no socket.
  ghost predicate Faded(v: Connection, v': Connection) {
    v'.phone == v.phone && (v.isDiscarded ==> v'.isDiscarded) && (v'.socket ==> v.socket)
  }

  ghost predicate OnlyFades(m: map<ConnId, Connection>, m': map<ConnId, Connection>) {
    forall c | c in m :: c in m' && Faded(m[c], m'[c])
  }

  lemma DecideOnlyFades(s: State, op: OpId, verdict: Verdict, c: ConnId, j: JobId)
    requires RegistryOk(s) && op in s.ops && c !in s.conns
    ensures OnlyFades(s.conns, DecideStep(s, op, verdict, c, j).conns)
  {
    var phone := s.ops[op].phone;
    if phone in s.connections {
      assert Retire(s, s.connections[phone]).conns == DiscardConn(s, s.connections[phone]).conns;
    }
  }

  lemma RetireOnlyFades(s: State, c: ConnId)
    requires c in s.conns
    ensures Retire(s, c).conns == s.conns[c := Discarded(s.conns[c])]
    ensures OnlyFades(s.conns, Retire(s, c).conns)
  {
  }

  lemma CloseOnlyFades(s: State, c: ConnId)
    requires c in s.conns
    ensures OnlyFades(s.conns, Close(s, c).conns) && OnlyFades(s.conns, EndClose(s, c).conns)
  {
  }

  lemma EnterOnlyFades(s: State, op: OpId)
    requires RegistryOk(s) && op in s.ops
    ensures OnlyFades(s.conns, EnterStep(s, op).conns)
  {
    var s1 := TakeSlot(s, op);
    if s.ops[op].phone in s.connections {
      var c := s.connections[s.ops[op].phone];
      RetireOnlyFades(s1, c);
      CloseOnlyFades(s1, c);
      assert EnterStep(s, op).conns in {s1.conns, Retire(s1, c).conns, Close(s1, c).conns};
    }
  }

  lemma UpdatedOnlyFades(s: State, op: OpId, existing: ConnId, ok: bool)
    requires op in s.ops && existing in s.conns
    ensures OnlyFades(s.conns, UpdatedStep(s, op, existing, ok).conns)
  {
  }

  lemma SpawnSettledOnlyFades(s: State, op: OpId, c: ConnId, j: JobId)
    requires op in s.ops && c in s.conns && j in s.jobs
    ensures OnlyFades(s.conns, SpawnSettledStep(s, op, c, j).conns)
  {
  }

  lemma OpStepOnlyFades(s: State, e: Event)
    requires RegistryOk(s) && Step(s, e) != s
    requires e.Decide? || e.Enter? || e.Updated? || e.SpawnSettled?
    ensures OnlyFades(s.conns, Step(s, e).conns)
  {
    match e {
      case Decide(op, verdict, c, j) => DecideOnlyFades(s, op, verdict, c, j);
      case Enter(op) => EnterOnlyFades(s, op);
      case Updated(op, ok) => UpdatedOnlyFades(s, op, s.ops[op].pc.existing, ok);
      case SpawnSettled(op) => SpawnSettledOnlyFades(s, op, s.ops[op].pc.conn, s.ops[op].pc.job);
    }
  }

  lemma BookkeepingOnlyFades(s: State, e: Event)
    requires e.Call? || e.Probed? || e.Deregister? || e.Leave? || e.AuthLoaded? || e.Reconnect?
    ensures Step(s, e).conns == s.conns
  {
  }

  lemma ConnectionEventOnlyFades(s: State, e: Event)
    requires e.SocketDropped? || e.StallFlag?
    ensures OnlyFades(s.conns, Step(s, e).conns)
  {
  }

  lemma SelfAbortOnlyFades(s: State, c: ConnId)
    ensures OnlyFades(s.conns, Step(s, SelfAbort(c)).conns)
  {
    if c in s.conns {
      RetireOnlyFades(s, c);
    }
  }

  lemma CloseEventOnlyFades(s: State, e: Event)
    requires e.RemoteLogout? || e.RemoteLogoutClosed?
    ensures OnlyFades(s.conns, Step(s, e).conns)
  {
    if e.conn in s.conns {
      CloseOnlyFades(s, e.conn);
      assert Step(s, e) in {s, Close(s, e.conn), EndClose(s, e.conn)};
    }
  }

  lemma SettleEventOnlyFades(s: State, e: Event)
    requires Step(s, e) != s && (e.LogoutClosed? || e.ReconnectFailed?)
    ensures OnlyFades(s.conns, Step(s, e).conns)
  {
  }

  lemma StepOnlyFades(s: State, e: Event)
    requires RegistryOk(s) && !e.VersionFetched?
    ensures OnlyFades(s.conns, Step(s, e).conns)
  {
    if e.Decide? || e.Enter? || e.Updated? || e.SpawnSettled? {
      if Step(s, e) != s {
        OpStepOnlyFades(s, e);
      }
    } else if e.Call? || e.Probed? || e.Deregister? || e.Leave? || e.AuthLoaded? || e.Reconnect? {
      BookkeepingOnlyFades(s, e);
    } else if e.LogoutClosed? || e.ReconnectFailed? {
      if Step(s, e) != s {
        SettleEventOnlyFades(s, e);
      }
    } else if e.SocketDropped? || e.StallFlag? {
      ConnectionEventOnlyFades(s, e);
    } else if e.SelfAbort? {
      SelfAbortOnlyFades(s, e.conn);
    } else {
      CloseEventOnlyFades(s, e);
    }
  }

  /**
   A socket is only ever built for a connection that is registered and not disowned at that very step,
   while every other connection of the phone already is.
   */
  lemma BuildsOnlyWhenRegistered(s: State, e: Event, c: ConnId)
    requires Inv(s) && c in s.conns && !s.conns[c].socket
    ensures c in Step(s, e).conns && Step(s, e).conns[c].socket ==>
              && e.VersionFetched? && !s.conns[c].isDiscarded && IsRegistered(s, c) && IsRegistered(Step(s, e), c)
              && forall d | d in s.conns && d != c && s.conns[d].phone == s.conns[c].phone :: s.conns[d].isDiscarded
  {
    if !e.VersionFetched? {
      StepOnlyFades(s, e);
    }
  }

  lemma DiscardedStaysSo(s: State, e: Event, c: ConnId)
    requires Inv(s) && c in s.conns && s.conns[c].isDiscarded && !s.conns[c].socket
    ensures c in Step(s, e).conns && Step(s, e).conns[c].isDiscarded && !Step(s, e).conns[c].socket
  {
    if !e.VersionFetched? {
      StepOnlyFades(s, e);
    }
  }

  /** A disowned connection without a socket never gets one again, whatever calls of connect() it had in flight. */
  lemma {:induction false} DiscardedNeverBuilds(s: State, es: seq<Event>, c: ConnId)
    requires Inv(s) && c in s.conns && s.conns[c].isDiscarded && !s.conns[c].socket
    ensures var s' := Run(s, es); c in s'.conns && s'.conns[c].isDiscarded && !s'.conns[c].socket
    decreases |es|
  {
    if es != [] {
      DiscardedStaysSo(s, es[0], c);
      StepKeepsInv(s, es[0]);
      DiscardedNeverBuilds(Step(s, es[0]), es[1..], c);
    }
  }

  // ---- the slot is always given back ----

  // The events that bring a slot's holder out of its critical section, each awaited call settling.
  function Finish(op: OpId, o: Op): seq<Event> {
    match o.pc
    case Spawning(_, j) => [AuthLoaded(j, true), VersionFetched(j, true), SpawnSettled(op), Leave(op)]
    case LoggingOut(_) => [LogoutClosed(op), Deregister(op), Leave(op)]
    case Deregistering(_) => [Deregister(op), Leave(op)]
    case _ => [Leave(op)]
  }

  // Still holding its slot, and at `pc`.
  ghost predicate HoldsSlot(s: State, op: OpId, phone: Phone, pc: Pc) {
    op in s.ops && s.ops[op] == Op(phone, s.ops[op].goal, pc) && phone in s.inFlightOps && s.inFlightOps[phone] == op
  }

  lemma LeaveFrees(s: State, op: OpId, phone: Phone)
    requires HoldsSlot(s, op, phone, Leaving)
    ensures phone !in Run(s, [Leave(op)]).inFlightOps
  {
  }

  lemma DeregisterFrees(s: State, op: OpId, phone: Phone, c: ConnId)
    requires HoldsSlot(s, op, phone, Deregistering(c))
    ensures phone !in Run(s, [Deregister(op), Leave(op)]).inFlightOps
  {
    assert [Deregister(op), Leave(op)][1..] == [Leave(op)];
    LeaveFrees(Step(s, Deregister(op)), op, phone);
  }

  lemma SettleFrees(s: State, op: OpId, phone: Phone, c: ConnId, j: JobId)
    requires HoldsSlot(s, op, phone, Spawning(c, j)) && c in s.conns && j in s.jobs
    requires s.jobs[j].phase.Returned? || s.jobs[j].phase.Rejected?
    ensures phone !in Run(s, [SpawnSettled(op), Leave(op)]).inFlightOps
  {
    assert [SpawnSettled(op), Leave(op)][1..] == [Leave(op)];
    LeaveFrees(Step(s, SpawnSettled(op)), op, phone);
  }

  lemma JobEnds(s: State, j: JobId)
    requires j in s.jobs && s.jobs[j].conn in s.conns
    ensures var s' := Step(Step(s, AuthLoaded(j, true)), VersionFetched(j, true));
            && s'.ops == s.ops && s'.inFlightOps == s.inFlightOps && s'.conns.Keys == s.conns.Keys
            && j in s'.jobs && (s'.jobs[j].phase.Returned? || s'.jobs[j].phase.Rejected?)
  {
    var s1 := Step(s, AuthLoaded(j, true));
    assert s1.conns == s.conns && j in s1.jobs && s1.jobs[j].conn == s.jobs[j].conn;
  }

  lemma SpawnFrees(s: State, op: OpId, phone: Phone, c: ConnId, j: JobId)
    requires HoldsSlot(s, op, phone, Spawning(c, j)) && c in s.conns && j in s.jobs && s.jobs[j].conn == c
    ensures phone !in Run(s, [AuthLoaded(j, true), VersionFetched(j, true), SpawnSettled(op), Leave(op)]).inFlightOps
  {
    var es := [AuthLoaded(j, true), VersionFetched(j, true), SpawnSettled(op), Leave(op)];
    assert es[1..][1..] == [SpawnSettled(op), Leave(op)] && es[1..][0] == VersionFetched(j, true);
    JobEnds(s, j);
    SettleFrees(Step(Step(s, AuthLoaded(j, true)), VersionFetched(j, true)), op, phone, c, j);
  }

  lemma LogoutFrees(s: State, op: OpId, phone: Phone, c: ConnId)
    requires HoldsSlot(s, op, phone, LoggingOut(c)) && c in s.conns
    ensures phone !in Run(s, [LogoutClosed(op), Deregister(op), Leave(op)]).inFlightOps
  {
    assert [LogoutClosed(op), Deregister(op), Leave(op)][1..] == [Deregister(op), Leave(op)];
    DeregisterFrees(Step(s, LogoutClosed(op)), op, phone, c);
  }

  /** No state is deadlocked: whoever holds a phone's slot can always run to the end and free it. */
  lemma SlotCanAlwaysBeFreed(s: State, phone: Phone)
    requires Inv(s) && phone in s.inFlightOps
    ensures var op := s.inFlightOps[phone]; phone !in Run(s, Finish(op, s.ops[op])).inFlightOps
  {
    var op := s.inFlightOps[phone];
    assert OpOk(s, s.ops[op]);
    match s.ops[op].pc {
      case Spawning(c, j) => SpawnFrees(s, op, phone, c, j);
      case LoggingOut(c) => LogoutFrees(s, op, phone, c);
      case Deregistering(c) => DeregisterFrees(s, op, phone, c);
      case Leaving => LeaveFrees(s, op, phone);
    }
  }

  /**
   A live connection shuts logouts and discards out: while its phone's slot is taken the holder is spawning or is
   on its way out of the slot.
   */
  lemma LogoutExcludesLive(s: State, c: ConnId)
    requires Inv(s) && c in s.conns && !s.conns[c].isDiscarded && s.conns[c].phone in s.inFlightOps
    ensures var holder := s.ops[s.inFlightOps[s.conns[c].phone]].pc; holder.Leaving? || holder.Spawning?
  {
    var op := s.inFlightOps[s.conns[c].phone];
    assert OpOk(s, s.ops[op]);
  }

  // ---- what exactly each step does ----

  // The spawn that connect() comes to past the drain: nothing registered, or a restart forced or still wanted.
  predicate Spawns(s: State, e: Event) {
    && e.Decide? && IsAt(s, e.op, true) && e.conn !in s.conns && e.job !in s.jobs
    && var phone := s.ops[e.op].phone;
       match s.ops[e.op].goal
       case Connect => e.verdict.Options? && (phone !in s.connections || e.verdict.forceRestart)
       case Restart(mine) =>
         phone in s.connections && s.connections[phone] == mine && mine in s.conns && s.conns[mine].restartPending
       case _ => false
  }

  // The slot is free for a discard, a logout, or the logout of just this connection, of this phone's.
  predicate EntersFor(s: State, e: Event, phone: Phone) {
    && e.Enter? && IsAt(s, e.op, true) && s.ops[e.op].phone == phone
    && (s.ops[e.op].goal.Discard? || s.ops[e.op].goal.Logout?
        || (s.ops[e.op].goal.LogoutOf? && phone in s.connections && s.connections[phone] == s.ops[e.op].goal.conn))
  }

  predicate FailsSpawning(s: State, e: Event, c: ConnId) {
    && e.SpawnSettled? && e.op in s.ops && s.ops[e.op].pc.Spawning? && s.ops[e.op].pc.conn == c
    && s.ops[e.op].pc.job in s.jobs && s.jobs[s.ops[e.op].pc.job].phase.Rejected?
  }

  predicate FindsItDead(s: State, e: Event, c: ConnId) {
    e.Updated? && e.ok && e.op in s.ops && s.ops[e.op].pc == Updating(c) && c in s.conns && !s.conns[c].socket
  }

  // The ways a live connection is disowned.
  predicate Disowns(s: State, e: Event, c: ConnId)
    requires c in s.conns
  {
    || (Spawns(s, e) && s.ops[e.op].phone == s.conns[c].phone)
    || EntersFor(s, e, s.conns[c].phone)
    || FindsItDead(s, e, c)
    || FailsSpawning(s, e, c)
    || (e.ReconnectFailed? && e.job in s.jobs && s.jobs[e.job] == Job(c, Rejected))
    || (e.SelfAbort? && e.conn == c)
    || (e.RemoteLogout? && e.conn == c)
  }

  lemma DecideDisownsIff(s: State, e: Event, c: ConnId)
    requires Inv(s) && c in s.conns && !s.conns[c].isDiscarded && e.Decide?
    ensures c in Step(s, e).conns && (Step(s, e).conns[c].isDiscarded <==> Disowns(s, e, c))
  {
    assert IsRegistered(s, c);
  }

  lemma EnterDisownsIff(s: State, e: Event, c: ConnId)
    requires Inv(s) && c in s.conns && !s.conns[c].isDiscarded && e.Enter?
    ensures c in Step(s, e).conns && (Step(s, e).conns[c].isDiscarded <==> Disowns(s, e, c))
  {
    assert IsRegistered(s, c);
  }

  lemma UpdatedDisownsIff(s: State, e: Event, c: ConnId)
    requires Inv(s) && c in s.conns && !s.conns[c].isDiscarded && (e.Updated? || e.SpawnSettled?)
    ensures c in Step(s, e).conns && (Step(s, e).conns[c].isDiscarded <==> Disowns(s, e, c))
  {
    assert IsRegistered(s, c);
    assert e.op in s.ops ==> OpOk(s, s.ops[e.op]);
  }

  lemma OpEventDisownsIff(s: State, e: Event, c: ConnId)
    requires Inv(s) && c in s.conns && !s.conns[c].isDiscarded
    requires e.Call? || e.Probed? || e.LogoutClosed? || e.Deregister? || e.Leave?
    ensures c in Step(s, e).conns && !Step(s, e).conns[c].isDiscarded
  {
    assert !e.Call? && e.op in s.ops ==> OpOk(s, s.ops[e.op]);
  }

  lemma JobEventDisownsNothing(s: State, e: Event, c: ConnId)
    requires c in s.conns && !s.conns[c].isDiscarded && (e.AuthLoaded? || e.VersionFetched? || e.Reconnect?)
    ensures c in Step(s, e).conns && !Step(s, e).conns[c].isDiscarded
  {
  }

  lemma ReconnectDisownsIff(s: State, e: Event, c: ConnId)
    requires Inv(s) && c in s.conns && !s.conns[c].isDiscarded && e.ReconnectFailed?
    ensures c in Step(s, e).conns && (Step(s, e).conns[c].isDiscarded <==> Disowns(s, e, c))
  {
  }

  lemma OwnEventDisownsIff(s: State, e: Event, c: ConnId)
    requires Inv(s) && c in s.conns && !s.conns[c].isDiscarded && (e.SelfAbort? || e.RemoteLogout?)
    ensures c in Step(s, e).conns && (Step(s, e).conns[c].isDiscarded <==> Disowns(s, e, c))
  {
  }

  lemma ConnectionEventDisownsNothing(s: State, e: Event, c: ConnId)
    requires c in s.conns && !s.conns[c].isDiscarded && (e.SocketDropped? || e.RemoteLogoutClosed? || e.StallFlag?)
    ensures c in Step(s, e).conns && !Step(s, e).conns[c].isDiscarded
  {
  }

  /**
   A live connection is disowned in exactly these ways: a restart that is forced, or its own that is still wanted;
   a discard or logout of its phone; an update that finds it without a socket; its own connect() failing; and its
   own abort or logout from outside. A connect() that may reuse it never disowns it.
   */
  lemma DisownedIff(s: State, e: Event, c: ConnId)
    requires Inv(s) && c in s.conns && !s.conns[c].isDiscarded
    ensures c in Step(s, e).conns && (Step(s, e).conns[c].isDiscarded <==> Disowns(s, e, c))
  {
    if e.Decide? {
      DecideDisownsIff(s, e, c);
    } else if e.Enter? {
      EnterDisownsIff(s, e, c);
    } else if e.Updated? || e.SpawnSettled? {
      UpdatedDisownsIff(s, e, c);
    } else if e.AuthLoaded? || e.VersionFetched? || e.Reconnect? {
      JobEventDisownsNothing(s, e, c);
    } else if e.ReconnectFailed? {
      ReconnectDisownsIff(s, e, c);
    } else if e.SelfAbort? || e.RemoteLogout? {
      OwnEventDisownsIff(s, e, c);
    } else if e.SocketDropped? || e.RemoteLogoutClosed? || e.StallFlag? {
      ConnectionEventDisownsNothing(s, e, c);
    } else {
      OpEventDisownsIff(s, e, c);
    }
  }

  predicate LeftAlone(s: State, es: seq<Event>, c: ConnId)
    decreases |es|
  {
    es == [] || (c in s.conns && !Disowns(s, es[0], c) && LeftAlone(Step(s, es[0]), es[1..], c))
  }

  /** So through any run with none of these a live connection stays live, registered, and the only one. */
  lemma {:induction false} LiveStaysLive(s: State, es: seq<Event>, c: ConnId)
    requires Inv(s) && c in s.conns && !s.conns[c].isDiscarded && LeftAlone(s, es, c)
    ensures var s' := Run(s, es); c in s'.conns && !s'.conns[c].isDiscarded && IsRegistered(s', c)
    decreases |es|
  {
    if es != [] {
      DisownedIff(s, es[0], c);
      StepKeepsInv(s, es[0]);
      LiveStaysLive(Step(s, es[0]), es[1..], c);
    }
  }

  /**
   connect() on a phone that has a connection: it replaces it, disowning the old one, taking the slot and starting
   the new one's connect(), exactly when a restart is forced; otherwise nothing is touched, and the connection is
   reconfigured unless the resolver vetoed.
   */
  lemma ConnectReusesIff(s: State, op: OpId, verdict: Verdict, c: ConnId, j: JobId)
    requires Inv(s) && IsAt(s, op, true) && s.ops[op].goal.Connect? && s.ops[op].phone in s.connections
    requires c !in s.conns && j !in s.jobs
    ensures var s', phone := Step(s, Decide(op, verdict, c, j)), s.ops[op].phone;
            var was := s.connections[phone];
            && ((s'.conns == s.conns && s'.connections == s.connections && s'.jobs == s.jobs
                 && s'.inFlightOps == s.inFlightOps) <==> verdict != Options(true))
            && (verdict == Options(true) ==>
                  && s'.conns == s.conns[was := s'.conns[was]][c := Connection(phone, false, false, false, false)]
                  && s'.conns[was].isDiscarded && s'.connections == s.connections[phone := c]
                  && s'.jobs == s.jobs[j := Job(c, LoadingAuth)] && s'.inFlightOps == s.inFlightOps[phone := op])
            && (verdict == Options(false) ==> s'.ops == s.ops[op := s.ops[op].(pc := Updating(was))])
            && (verdict == Veto ==> s'.ops == s.ops[op := s.ops[op].(pc := Done)])
  {
    assert s.connections[s.ops[op].phone] in s.conns;
    var s', phone := Step(s, Decide(op, verdict, c, j)), s.ops[op].phone;
    if verdict == Options(true) {
      assert s'.inFlightOps == s.inFlightOps[phone := op] && phone !in s.inFlightOps;
      assert phone !in (s.connections - {phone});
      assert (s.connections - {phone})[phone := c] == s.connections[phone := c];
    }
  }

  /** An undisturbed connect() on a connection with a socket only reconfigures and probes it. */
  lemma ReusesAlone(s: State, op: OpId, c: ConnId, j: JobId)
    requires Inv(s) && IsAt(s, op, true) && s.ops[op].goal.Connect? && s.ops[op].phone in s.connections
    requires c !in s.conns && j !in s.jobs && s.conns[s.connections[s.ops[op].phone]].socket
    ensures var s' := Step(Step(Step(s, Decide(op, Options(false), c, j)), Updated(op, true)), Probed(op));
            s' == s.(ops := s.ops[op := s.ops[op].(pc := Done)])
  {
    ConnectReusesIff(s, op, Options(false), c, j);
    var a := Step(s, Decide(op, Options(false), c, j));
    var was := s.connections[s.ops[op].phone];
    assert a == s.(ops := s.ops[op := s.ops[op].(pc := Updating(was))]);
    var b := Step(a, Updated(op, true));
    assert b.ops == s.ops[op := s.ops[op].(pc := Probing(was))];
    assert Step(b, Probed(op)).ops == s.ops[op := s.ops[op].(pc := Done)];
  }

  // connect() for a phone without a connection, to its end.
  function Connected(s: State, op: OpId, c: ConnId, j: JobId): State {
    var s1 := Step(Step(Step(s, Decide(op, Options(false), c, j)), AuthLoaded(j, true)), VersionFetched(j, true));
    Step(Step(s1, SpawnSettled(op)), Leave(op))
  }

  /** Undisturbed it ends with a live registered connection that has a socket, and the slot free again. */
  lemma ConnectsAlone(s: State, op: OpId, c: ConnId, j: JobId)
    requires Inv(s) && IsAt(s, op, true) && s.ops[op].goal.Connect? && s.ops[op].phone !in s.connections
    requires c !in s.conns && j !in s.jobs
    ensures var s', phone := Connected(s, op, c, j), s.ops[op].phone;
            && s'.conns == s.conns[c := Connection(phone, false, false, true, false)]
            && s'.connections == s.connections[phone := c] && s'.inFlightOps == s.inFlightOps
            && s'.ops == s.ops[op := s.ops[op].(pc := Done)]
  {
    SpawnsAlone(s, op, c, j);
    var a := Step(s, Decide(op, Options(false), c, j));
    LoadsAlone(a, c, j);
    LeavesAlone(Step(Step(a, AuthLoaded(j, true)), VersionFetched(j, true)), op, c, j);
    assert s.inFlightOps[s.ops[op].phone := op] - {s.ops[op].phone} == s.inFlightOps;
    assert s.conns[c := a.conns[c]][c := a.conns[c].(socket := true)] == s.conns[c := a.conns[c].(socket := true)];
  }

  lemma SpawnsAlone(s: State, op: OpId, c: ConnId, j: JobId)
    requires IsAt(s, op, true) && s.ops[op].goal.Connect? && s.ops[op].phone !in s.connections
    requires c !in s.conns && j !in s.jobs
    ensures var phone := s.ops[op].phone;
            Step(s, Decide(op, Options(false), c, j)) ==
            s.(conns := s.conns[c := Connection(phone, false, false, false, false)],
               connections := s.connections[phone := c], inFlightOps := s.inFlightOps[phone := op],
               jobs := s.jobs[j := Job(c, LoadingAuth)], ops := s.ops[op := s.ops[op].(pc := Spawning(c, j))])
  {
  }

  lemma LeavesAlone(s: State, op: OpId, c: ConnId, j: JobId)
    requires op in s.ops && s.ops[op].pc == Spawning(c, j) && c in s.conns && j in s.jobs && s.jobs[j].phase.Returned?
    requires s.ops[op].phone in s.inFlightOps && s.inFlightOps[s.ops[op].phone] == op
    ensures Step(Step(s, SpawnSettled(op)), Leave(op)) ==
            s.(inFlightOps := s.inFlightOps - {s.ops[op].phone}, ops := s.ops[op := s.ops[op].(pc := Done)])
  {
    var a := Step(s, SpawnSettled(op));
    assert a.ops == s.ops[op := s.ops[op].(pc := Leaving)];
    assert Step(a, Leave(op)).ops == s.ops[op := s.ops[op].(pc := Done)];
  }

  lemma LoadsAlone(s: State, c: ConnId, j: JobId)
    requires j in s.jobs && s.jobs[j] == Job(c, LoadingAuth) && c in s.conns && !s.conns[c].isDiscarded
    ensures Step(Step(s, AuthLoaded(j, true)), VersionFetched(j, true)) ==
            s.(conns := s.conns[c := s.conns[c].(socket := true)], jobs := s.jobs[j := Job(c, Returned)])
  {
    var a := Step(s, AuthLoaded(j, true));
    assert a.jobs == s.jobs[j := Job(c, FetchingVersion)];
  }

  /** And where the registered connection has lost its socket, it is evicted first and the phone decided again. */
  lemma DeadEntryIsEvicted(s: State, op: OpId, c: ConnId, j: JobId)
    requires Inv(s) && IsAt(s, op, true) && s.ops[op].goal.Connect? && s.ops[op].phone in s.connections
    requires c !in s.conns && j !in s.jobs && !s.conns[s.connections[s.ops[op].phone]].socket
    ensures var s', phone := Step(Step(s, Decide(op, Options(false), c, j)), Updated(op, true)), s.ops[op].phone;
            var was := s.connections[phone];
            && s'.connections == s.connections - {phone} && s'.inFlightOps == s.inFlightOps && s'.jobs == s.jobs
            && s'.conns == s.conns[was := s.conns[was].(isDiscarded := true)] && s'.ops == s.ops
  {
    ConnectReusesIff(s, op, Options(false), c, j);
    var a := Step(s, Decide(op, Options(false), c, j));
    var was := s.connections[s.ops[op].phone];
    assert a == s.(ops := s.ops[op := s.ops[op].(pc := Updating(was))]);
    assert IsRegistered(a, was);
    assert s.ops[op := s.ops[op].(pc := Updating(was))][op := s.ops[op].(pc := Waiting)] == s.ops;
  }

  // ---- the registry ----

  // The ways the entry of a phone goes.
  predicate Clears(s: State, e: Event, phone: Phone)
    requires phone in s.connections
  {
    var c := s.connections[phone];
    || (e.Enter? && EntersFor(s, e, phone) && s.ops[e.op].goal.Discard?)
    || FindsItDead(s, e, c)
    || FailsSpawning(s, e, c)
    || (e.LogoutClosed? && e.op in s.ops && s.ops[e.op].pc == LoggingOut(c))
    || (e.Deregister? && e.op in s.ops && s.ops[e.op].pc.Deregistering? && s.ops[e.op].phone == phone)
    || (e.ReconnectFailed? && e.job in s.jobs && s.jobs[e.job] == Job(c, Rejected) && !IsDisowned(s, c))
    || (e.SelfAbort? && e.conn == c && !IsDisowned(s, c))
    || (e.RemoteLogoutClosed? && e.conn == c && c in s.conns && s.conns[c].closing)
  }

  predicate IsDisowned(s: State, c: ConnId) {
    c in s.conns && s.conns[c].isDiscarded
  }

  // The entry after the step: the one spawned, none if it is cleared, and the same otherwise.
  ghost predicate EntryMoves(s: State, e: Event, phone: Phone) {
    var s' := Step(s, e);
    if Spawns(s, e) && s.ops[e.op].phone == phone then phone in s'.connections && s'.connections[phone] == e.conn
    else if phone in s.connections && Clears(s, e, phone) then phone !in s'.connections
    else (phone in s'.connections <==> phone in s.connections)
         && (phone in s.connections ==> s'.connections[phone] == s.connections[phone])
  }

  lemma DecideMovesTheEntry(s: State, e: Event, phone: Phone)
    requires Inv(s) && e.Decide?
    ensures EntryMoves(s, e, phone)
  {
  }

  lemma EnterMovesTheEntry(s: State, e: Event, phone: Phone)
    requires Inv(s) && e.Enter?
    ensures EntryMoves(s, e, phone)
  {
  }

  lemma UpdatedMovesTheEntry(s: State, e: Event, phone: Phone)
    requires Inv(s) && e.Updated?
    ensures EntryMoves(s, e, phone)
  {
    assert e.op in s.ops ==> OpOk(s, s.ops[e.op]);
  }

  lemma SettledMovesTheEntry(s: State, e: Event, phone: Phone)
    requires Inv(s) && e.SpawnSettled?
    ensures EntryMoves(s, e, phone)
  {
    assert e.op in s.ops ==> OpOk(s, s.ops[e.op]);
  }

  lemma ClosedMovesTheEntry(s: State, e: Event, phone: Phone)
    requires Inv(s) && e.LogoutClosed?
    ensures EntryMoves(s, e, phone)
  {
    assert e.op in s.ops ==> OpOk(s, s.ops[e.op]);
  }

  lemma DeregisterMovesTheEntry(s: State, e: Event, phone: Phone)
    requires Inv(s) && (e.Deregister? || e.Leave? || e.Call? || e.Probed?)
    ensures EntryMoves(s, e, phone)
  {
    assert e.Deregister? && e.op in s.ops ==> OpOk(s, s.ops[e.op]);
  }

  lemma AbortMovesTheEntry(s: State, e: Event, phone: Phone)
    requires Inv(s) && (e.SelfAbort? || e.RemoteLogoutClosed?)
    ensures EntryMoves(s, e, phone)
  {
  }

  lemma FailedMovesTheEntry(s: State, e: Event, phone: Phone)
    requires Inv(s) && e.ReconnectFailed?
    ensures EntryMoves(s, e, phone)
  {
  }

  lemma OtherMovesTheEntry(s: State, e: Event, phone: Phone)
    requires Inv(s)
    requires e.AuthLoaded? || e.VersionFetched? || e.Reconnect? || e.SocketDropped? || e.RemoteLogout? || e.StallFlag?
    ensures EntryMoves(s, e, phone)
  {
  }

  /** A phone's entry is set by the spawn that connect() comes to, goes in exactly the ways listed, and else stays. */
  lemma EntryMovesSo(s: State, e: Event, phone: Phone)
    requires Inv(s)
    ensures EntryMoves(s, e, phone)
  {
    if e.Decide? {
      DecideMovesTheEntry(s, e, phone);
    } else if e.Enter? {
      EnterMovesTheEntry(s, e, phone);
    } else if e.Updated? {
      UpdatedMovesTheEntry(s, e, phone);
    } else if e.SpawnSettled? {
      SettledMovesTheEntry(s, e, phone);
    } else if e.LogoutClosed? {
      ClosedMovesTheEntry(s, e, phone);
    } else if e.Deregister? || e.Leave? || e.Call? || e.Probed? {
      DeregisterMovesTheEntry(s, e, phone);
    } else if e.SelfAbort? || e.RemoteLogoutClosed? {
      AbortMovesTheEntry(s, e, phone);
    } else if e.ReconnectFailed? {
      FailedMovesTheEntry(s, e, phone);
    } else {
      OtherMovesTheEntry(s, e, phone);
    }
  }

  /** A call begins once, waiting for its phone's slot. */
  lemma CallsWait(s: State, op: OpId, phone: Phone, goal: Goal)
    ensures Step(s, Call(op, phone, goal)) ==
            if op in s.ops then s else s.(ops := s.ops[op := Op(phone, goal, Waiting)])
  {
  }

  /**
   One connect() of a connection: a load that fails rejects it; otherwise a disowned connection returns at once and a
   live one goes on; what that brings up, or fails to, ends it, a disowned one returning. A reconnect starts another,
   exactly on a live connection without a socket.
   */
  lemma JobsMoveSo(s: State, j: JobId, ok: bool, c: ConnId)
    requires Inv(s)
    ensures j in s.jobs && s.jobs[j].phase.LoadingAuth? ==>
              Step(s, AuthLoaded(j, ok)) ==
              s.(jobs := s.jobs[j := Job(s.jobs[j].conn,
                                         if !ok then Rejected
                                         else if s.conns[s.jobs[j].conn].isDiscarded then Returned
                                         else FetchingVersion)])
    ensures j in s.jobs && s.jobs[j].phase.FetchingVersion? ==>
              Step(s, VersionFetched(j, ok)).jobs ==
              s.jobs[j := Job(s.jobs[j].conn,
                              if s.conns[s.jobs[j].conn].isDiscarded || ok then Returned else Rejected)]
    ensures c in s.conns && j !in s.jobs ==>
              Step(s, Reconnect(c, j)) ==
              if s.conns[c].isDiscarded || s.conns[c].socket then s else s.(jobs := s.jobs[j := Job(c, LoadingAuth)])
  {
  }

  /** Whether a restart is pending is the connection's own flag. */
  lemma FlagsMoveSo(s: State, c: ConnId, pending: bool)
    requires c in s.conns
    ensures Step(s, StallFlag(c, pending)) == s.(conns := s.conns[c := s.conns[c].(restartPending := pending)])
  {
  }

  // ---- sockets and slots ----

  // Disowned and its socket ended in one go, as against the closes, which keep it until they end.
  predicate Discards(s: State, e: Event, c: ConnId)
    requires c in s.conns
  {
    && !s.conns[c].isDiscarded && Disowns(s, e, c) && !e.RemoteLogout?
    && (e.Enter? && e.op in s.ops ==> s.ops[e.op].goal.Discard?)
  }

  predicate EndsSocket(s: State, e: Event, c: ConnId)
    requires c in s.conns
  {
    || Discards(s, e, c)
    || (e.SocketDropped? && e.conn == c)
    || (e.LogoutClosed? && e.op in s.ops && s.ops[e.op].pc == LoggingOut(c))
    || (e.RemoteLogoutClosed? && e.conn == c && s.conns[c].closing)
  }

  predicate BuildsSocket(s: State, e: Event, c: ConnId)
    requires c in s.conns
  {
    && e.VersionFetched? && e.built && e.job in s.jobs && s.jobs[e.job] == Job(c, FetchingVersion)
    && !s.conns[c].isDiscarded
  }

  ghost predicate SocketMoves(s: State, e: Event, c: ConnId)
    requires c in s.conns
  {
    && c in Step(s, e).conns
    && (Step(s, e).conns[c].socket <==> (s.conns[c].socket && !EndsSocket(s, e, c)) || BuildsSocket(s, e, c))
  }

  lemma DecideMovesTheSocket(s: State, e: Event, c: ConnId)
    requires Inv(s) && c in s.conns && e.Decide?
    ensures SocketMoves(s, e, c)
  {
  }

  lemma EnterMovesTheSocket(s: State, e: Event, c: ConnId)
    requires Inv(s) && c in s.conns && e.Enter?
    ensures SocketMoves(s, e, c)
  {
  }

  lemma UpdatedMovesTheSocket(s: State, e: Event, c: ConnId)
    requires Inv(s) && c in s.conns && e.Updated?
    ensures SocketMoves(s, e, c)
  {
    assert e.op in s.ops ==> OpOk(s, s.ops[e.op]);
  }

  lemma SettledMovesTheSocket(s: State, e: Event, c: ConnId)
    requires Inv(s) && c in s.conns && e.SpawnSettled?
    ensures SocketMoves(s, e, c)
  {
    assert e.op in s.ops ==> OpOk(s, s.ops[e.op]);
  }

  lemma ClosedMovesTheSocket(s: State, e: Event, c: ConnId)
    requires Inv(s) && c in s.conns && e.LogoutClosed?
    ensures SocketMoves(s, e, c)
  {
    assert e.op in s.ops ==> OpOk(s, s.ops[e.op]);
  }

  lemma IdleMovesTheSocket(s: State, e: Event, c: ConnId)
    requires Inv(s) && c in s.conns && (e.Call? || e.Probed? || e.Deregister? || e.Leave?)
    ensures SocketMoves(s, e, c)
  {
    assert Step(s, e).conns == s.conns;
  }

  lemma JobMovesTheSocket(s: State, e: Event, c: ConnId)
    requires Inv(s) && c in s.conns && (e.VersionFetched? || e.ReconnectFailed?)
    ensures SocketMoves(s, e, c)
  {
  }

  lemma OwnMovesTheSocket(s: State, e: Event, c: ConnId)
    requires Inv(s) && c in s.conns && (e.SelfAbort? || e.RemoteLogout?)
    ensures SocketMoves(s, e, c)
  {
  }

  lemma DroppedMovesTheSocket(s: State, e: Event, c: ConnId)
    requires Inv(s) && c in s.conns && (e.RemoteLogoutClosed? || e.SocketDropped?)
    ensures SocketMoves(s, e, c)
  {
  }

  lemma OtherMovesTheSocket(s: State, e: Event, c: ConnId)
    requires Inv(s) && c in s.conns && (e.AuthLoaded? || e.Reconnect? || e.StallFlag?)
    ensures SocketMoves(s, e, c)
  {
  }

  /** A connection's socket comes with the end of its connect() while it is live, and ends in exactly these ways. */
  lemma SocketMovesSo(s: State, e: Event, c: ConnId)
    requires Inv(s) && c in s.conns
    ensures SocketMoves(s, e, c)
  {
    if e.Decide? {
      DecideMovesTheSocket(s, e, c);
    } else if e.Enter? {
      EnterMovesTheSocket(s, e, c);
    } else if e.Updated? {
      UpdatedMovesTheSocket(s, e, c);
    } else if e.SpawnSettled? {
      SettledMovesTheSocket(s, e, c);
    } else if e.LogoutClosed? {
      ClosedMovesTheSocket(s, e, c);
    } else if e.Call? || e.Probed? || e.Deregister? || e.Leave? {
      IdleMovesTheSocket(s, e, c);
    } else if e.VersionFetched? || e.ReconnectFailed? {
      JobMovesTheSocket(s, e, c);
    } else if e.SelfAbort? || e.RemoteLogout? {
      OwnMovesTheSocket(s, e, c);
    } else if e.RemoteLogoutClosed? || e.SocketDropped? {
      DroppedMovesTheSocket(s, e, c);
    } else {
      OtherMovesTheSocket(s, e, c);
    }
  }

  ghost predicate SlotMoves(s: State, e: Event, phone: Phone) {
    var s' := Step(s, e);
    if (Spawns(s, e) && s.ops[e.op].phone == phone)
       || (e.Enter? && IsAt(s, e.op, true) && s.ops[e.op].phone == phone
           && !s.ops[e.op].goal.Connect? && !s.ops[e.op].goal.Restart?)
    then phone in s'.inFlightOps && s'.inFlightOps[phone] == e.op
    else if e.Leave? && e.op in s.ops && s.ops[e.op].pc.Leaving?
            && phone in s.inFlightOps && s.inFlightOps[phone] == e.op
    then phone !in s'.inFlightOps
    else (phone in s'.inFlightOps <==> phone in s.inFlightOps)
         && (phone in s.inFlightOps ==> s'.inFlightOps[phone] == s.inFlightOps[phone])
  }

  /** A phone's slot is taken by a spawn, a discard or a logout, given back by its holder's leaving, and else stays. */
  lemma SlotMovesSo(s: State, e: Event, phone: Phone)
    requires Inv(s)
    ensures SlotMoves(s, e, phone)
  {
    if e.Decide? {
      DecideMovesTheSlot(s, e, phone);
    } else if e.Enter? || e.Leave? {
      EnterMovesTheSlot(s, e, phone);
    } else {
      OthersSpareTheSlots(s, e);
    }
  }

  lemma DecideMovesTheSlot(s: State, e: Event, phone: Phone)
    requires Inv(s) && e.Decide?
    ensures SlotMoves(s, e, phone)
  {
  }

  lemma EnterMovesTheSlot(s: State, e: Event, phone: Phone)
    requires Inv(s) && (e.Enter? || e.Leave?)
    ensures SlotMoves(s, e, phone)
  {
  }

  lemma OthersSpareTheSlots(s: State, e: Event)
    requires !e.Decide? && !e.Enter? && !e.Leave?
    ensures Step(s, e).inFlightOps == s.inFlightOps
  {
  }

  // ---- the slot's other users, to their ends ----

  /** A discard disowns the registered connection, ends its socket, drops the entry and leaves the slot free. */
  lemma DiscardsAlone(s: State, op: OpId)
    requires Inv(s) && IsAt(s, op, true) && s.ops[op].goal.Discard? && s.ops[op].phone in s.connections
    ensures var s', phone := Step(Step(s, Enter(op)), Leave(op)), s.ops[op].phone;
            var was := s.connections[phone];
            && s'.connections == s.connections - {phone} && s'.inFlightOps == s.inFlightOps
            && was in s'.conns && s'.conns[was].isDiscarded && (!s.conns[was].closing ==> !s'.conns[was].socket)
            && s'.conns == s.conns[was := s'.conns[was]] && s'.ops == s.ops[op := s.ops[op].(pc := Done)]
  {
    var phone := s.ops[op].phone;
    var a := Step(s, Enter(op));
    assert a.ops == s.ops[op := s.ops[op].(pc := Leaving)] && a.inFlightOps == s.inFlightOps[phone := op];
    assert s.inFlightOps[phone := op] - {phone} == s.inFlightOps;
  }

  /** A logout, or one of just the registered connection, ends it likewise; of any other connection it does nothing. */
  lemma LogsOutAlone(s: State, op: OpId)
    requires Inv(s) && IsAt(s, op, true) && s.ops[op].phone in s.connections
    requires s.ops[op].goal.Logout? || s.ops[op].goal.LogoutOf?
    ensures var s' := Step(Step(Step(Step(s, Enter(op)), LogoutClosed(op)), Deregister(op)), Leave(op));
            var phone := s.ops[op].phone;
            var was := s.connections[phone];
            && s'.inFlightOps == s.inFlightOps && s'.ops == s.ops[op := s.ops[op].(pc := Done)]
            && if s.ops[op].goal.LogoutOf? && s.ops[op].goal.conn != was
               then s'.connections == s.connections && s'.conns == s.conns
               else s'.connections == s.connections - {phone}
                    && s'.conns == s.conns[was := s.conns[was].(isDiscarded := true, closing := true, socket := false)]
  {
    var phone, o := s.ops[op].phone, s.ops[op];
    var was := s.connections[phone];
    EntersForLogout(s, op);
    var a := Step(s, Enter(op));
    assert s.inFlightOps[phone := op] - {phone} == s.inFlightOps;
    if o.goal.LogoutOf? && o.goal.conn != was {
      assert Step(Step(a, LogoutClosed(op)), Deregister(op)) == a;
    } else {
      ClosesAlone(a, op, was);
    }
  }

  lemma EntersForLogout(s: State, op: OpId)
    requires Inv(s) && IsAt(s, op, true) && s.ops[op].phone in s.connections
    requires s.ops[op].goal.Logout? || s.ops[op].goal.LogoutOf?
    ensures var phone, o := s.ops[op].phone, s.ops[op];
            var was := s.connections[phone];
            Step(s, Enter(op)) ==
            if o.goal.LogoutOf? && o.goal.conn != was
            then s.(inFlightOps := s.inFlightOps[phone := op], ops := s.ops[op := o.(pc := Leaving)])
            else s.(inFlightOps := s.inFlightOps[phone := op], ops := s.ops[op := o.(pc := LoggingOut(was))],
                    conns := s.conns[was := s.conns[was].(isDiscarded := true, closing := true)])
  {
  }

  lemma ClosesAlone(s: State, op: OpId, c: ConnId)
    requires op in s.ops && s.ops[op].pc == LoggingOut(c) && IsRegistered(s, c) && s.conns[c].phone == s.ops[op].phone
    requires s.ops[op].phone in s.inFlightOps && s.inFlightOps[s.ops[op].phone] == op
    ensures var s', phone := Step(Step(Step(s, LogoutClosed(op)), Deregister(op)), Leave(op)), s.ops[op].phone;
            && s'.connections == s.connections - {phone} && s'.inFlightOps == s.inFlightOps - {phone}
            && s'.ops == s.ops[op := s.ops[op].(pc := Done)]
            && s'.conns == s.conns[c := s.conns[c].(socket := false)]
  {
    var a := Step(s, LogoutClosed(op));
    assert a.ops == s.ops[op := s.ops[op].(pc := Deregistering(c))];
    var b := Step(a, Deregister(op));
    assert b.ops == s.ops[op := s.ops[op].(pc := Leaving)];
  }

  // ---- what logoutAll costs ----

  // logoutAll() ends by forgetting every entry without taking a slot.
  function LogoutAllReset(s: State): State {
    s.(connections := map[])
  }

  /** Forgetting every entry is harmless exactly when every connection has been disowned by then. */
  lemma LogoutAllIsSafeIff(s: State)
    requires Inv(s)
    ensures Inv(LogoutAllReset(s)) <==> forall c | c in s.conns :: s.conns[c].isDiscarded
  {
    var s' := LogoutAllReset(s);
    if forall c | c in s.conns :: s.conns[c].isDiscarded {
      forall op | op in s'.ops
        ensures OpOk(s', s'.ops[op])
      {
        assert OpOk(s, s.ops[op]);
      }
    } else {
      var c :| c in s.conns && !s.conns[c].isDiscarded;
      assert !IsRegistered(s', c);
    }
  }

  /**
   The claim does not survive logoutAll: whatever live connection a concurrent connect registered while it
   awaited its snapshot's logouts is dropped from the registry alive, and the next connect adds a second.
   */
  lemma LogoutAllLeavesTwo(s: State, op: OpId, mine: ConnId, next: ConnId, j: JobId)
    requires Inv(s) && mine in s.conns && !s.conns[mine].isDiscarded
    requires IsAt(s, op, true) && s.ops[op].goal == Connect && s.ops[op].phone == s.conns[mine].phone
    requires next !in s.conns && j !in s.jobs
    ensures var s' := Step(LogoutAllReset(s), Decide(op, Options(false), next, j));
            && mine in s'.conns && next in s'.conns && mine != next
            && !s'.conns[mine].isDiscarded && !s'.conns[next].isDiscarded
            && s'.conns[mine].phone == s'.conns[next].phone
  {
  }

  // ---- the handler itself ----

  /**
   The handler with the objects it manages, in the source's shape: each method is one stretch of its code
   between two awaits, and is proved to be the step of the same name.
   */
  class BaileysConnectionsHandler {
    var connections: map<Phone, ConnId>
    var inFlightOps: map<Phone, OpId>
    var conns: map<ConnId, Connection>
    var jobs: map<JobId, Job>
    var ops: map<OpId, Op>

    function Now(): State
      reads this
    {
      State(connections, inFlightOps, conns, jobs, ops)
    }

    constructor ()
      ensures Now() == Boot() && Inv(Now())
    {
      connections, inFlightOps, conns, jobs, ops := map[], map[], map[], map[], map[];
    }

    // existing.discard()
    method DiscardObject(c: ConnId)
      requires c in conns
      modifies this`conns
      ensures Now() == DiscardConn(old(Now()), c)
    {
      if conns[c].isDiscarded {
        assert conns == conns[c := conns[c]];
        return;
      }
      conns := conns[c := conns[c].(isDiscarded := true, socket := false)];
    }

    method OnConnectionClose(c: ConnId)
      requires c in conns
      modifies this`connections
      ensures Now() == Evict(old(Now()), c)
    {
      var phone := conns[c].phone;
      if phone in connections && connections[phone] == c {
        connections := connections - {phone};
      }
    }

    method CallOperation(op: OpId, phone: Phone, goal: Goal)
      requires op !in ops
      modifies this`ops
      ensures Now() == Step(old(Now()), Call(op, phone, goal))
    {
      ops := ops[op := Op(phone, goal, Waiting)];
    }

    method SpawnConnection(op: OpId, c: ConnId, j: JobId)
      requires Inv(Now()) && op in ops
      modifies this
      ensures Now() == Spawn(old(Now()), op, c, j)
    {
      var phone := ops[op].phone;
      inFlightOps := inFlightOps[phone := op];
      if phone in connections {
        DiscardObject(connections[phone]);
      }
      conns := conns[c := Connection(phone, false, false, false, false)];
      connections := connections[phone := c];
      jobs := jobs[j := Job(c, LoadingAuth)];
      ops := ops[op := ops[op].(pc := Spawning(c, j))];
    }

    // connect(), from the drain to the next await. `options` is the resolver's answer for a plain connect.
    method DecideConnect(op: OpId, options: Verdict, c: ConnId, j: JobId)
      requires Inv(Now()) && IsAt(Now(), op, true) && (ops[op].goal.Connect? || ops[op].goal.Restart?)
      requires c !in conns && j !in jobs
      modifies this
      ensures Now() == Step(old(Now()), Decide(op, options, c, j)) && Inv(Now())
    {
      DecideKeepsInv(Now(), op, options, c, j);
      var phone, goal := ops[op].phone, ops[op].goal;
      var resolved := options;
      if goal.Restart? {
        var ours := phone in connections && connections[phone] == goal.conn && conns[goal.conn].restartPending;
        resolved := if ours then Options(true) else Veto;
      }
      if resolved.Veto? {
        ops := ops[op := ops[op].(pc := Done)];
        return;
      }
      if phone in connections {
        var existing := connections[phone];
        if !resolved.forceRestart {
          ops := ops[op := ops[op].(pc := Updating(existing))];
          return;
        }
        RetireKeepsInv(Now(), existing);
        DiscardObject(existing);
        connections := connections - {phone};
      }
      SpawnConnection(op, c, j);
    }

    // After updateOptions: the presence probe is sent, or the dead entry evicted and the decision taken again.
    method ProbeExisting(op: OpId, ok: bool)
      requires Inv(Now()) && op in ops && ops[op].pc.Updating?
      modifies this
      ensures Now() == Step(old(Now()), Updated(op, ok)) && Inv(Now())
    {
      var existing := ops[op].pc.existing;
      assert OpOk(Now(), ops[op]);
      UpdatedKeepsInv(Now(), op, existing, ok);
      if !ok {
        ops := ops[op := ops[op].(pc := Done)];
      } else if conns[existing].socket {
        ops := ops[op := ops[op].(pc := Probing(existing))];
      } else {
        var phone := conns[existing].phone;
        if phone in connections && connections[phone] == existing {
          DiscardObject(existing);
          connections := connections - {phone};
        }
        ops := ops[op := ops[op].(pc := Waiting)];
      }
    }

    // withInFlightOp has drained: discardConnection, logout or requestLogout up to the first await.
    method EnterSlot(op: OpId)
      requires Inv(Now()) && IsAt(Now(), op, true)
      requires ops[op].goal.Discard? || ops[op].goal.Logout? || ops[op].goal.LogoutOf?
      modifies this
      ensures Now() == Step(old(Now()), Enter(op)) && Inv(Now())
    {
      EnterKeepsInv(Now(), op);
      var phone, goal := ops[op].phone, ops[op].goal;
      inFlightOps := inFlightOps[phone := op];
      ops := ops[op := ops[op].(pc := Leaving)];
      if phone !in connections {
        return;
      }
      var c := connections[phone];
      if goal.Discard? {
        DiscardObject(c);
        connections := connections - {phone};
      } else if goal.Logout? || goal.conn == c {
        conns := conns[c := conns[c].(isDiscarded := true, closing := true)];
        ops := ops[op := ops[op].(pc := LoggingOut(c))];
      }
    }

    // connection.connect() has settled inside spawnConnection.
    method FinishSpawn(op: OpId)
      requires Inv(Now()) && op in ops && ops[op].pc.Spawning?
      requires jobs[ops[op].pc.job].phase.Returned? || jobs[ops[op].pc.job].phase.Rejected?
      modifies this
      ensures Now() == Step(old(Now()), SpawnSettled(op)) && Inv(Now())
    {
      var c, j := ops[op].pc.conn, ops[op].pc.job;
      assert OpOk(Now(), ops[op]);
      SpawnSettledKeepsInv(Now(), op, c, j);
      if jobs[j].phase.Rejected? {
        OnConnectionClose(c);
        DiscardObject(c);
      }
      ops := ops[op := ops[op].(pc := Leaving)];
    }

    method DeregisterLoggedOut(op: OpId)
      requires Inv(Now()) && op in ops && ops[op].pc.Deregistering?
      modifies this
      ensures Now() == Step(old(Now()), Deregister(op)) && Inv(Now())
    {
      DeregisterKeepsInv(Now(), op);
      connections := connections - {ops[op].phone};
      ops := ops[op := ops[op].(pc := Leaving)];
    }

    method ReleaseSlot(op: OpId)
      requires Inv(Now()) && op in ops && ops[op].pc.Leaving?
      modifies this
      ensures Now() == Step(old(Now()), Leave(op)) && Inv(Now())
      ensures ops[op].phone !in inFlightOps
    {
      LeaveKeepsInv(Now(), op);
      var phone := ops[op].phone;
      if phone in inFlightOps && inFlightOps[phone] == op {
        inFlightOps := inFlightOps - {phone};
      }
      ops := ops[op := ops[op].(pc := Done)];
    }

    // One attempt of BaileysConnection.connect() reaching its last check before it builds the socket.
    method BuildSocket(j: JobId, built: bool)
      requires Inv(Now()) && j in jobs && jobs[j].phase.FetchingVersion?
      modifies this
      ensures Now() == Step(old(Now()), VersionFetched(j, built)) && Inv(Now())
    {
      VersionFetchedKeepsInv(Now(), j, built);
      var c := jobs[j].conn;
      if conns[c].isDiscarded {
        jobs := jobs[j := jobs[j].(phase := Returned)];
      } else if built {
        conns := conns[c := conns[c].(socket := true)];
        jobs := jobs[j := jobs[j].(phase := Returned)];
      } else {
        jobs := jobs[j := jobs[j].(phase := Rejected)];
      }
    }
  }
}
