/**
 One phone's lease as the coordinator of one instance uses it: which epoch it holds in memory, every operation
 that takes a lease, and the releases it sends. Explicit connects, restarts, logouts, claims, renewals and
 handoffs run at once; each Redis command is one step, and so is each stretch of code between two awaits.
 */
module Coordinator {
  import opened Wrappers
  import LeaseStore

  type Instance = LeaseStore.Instance
  type Lease = LeaseStore.Lease
  type OpId = nat

  // A handoff is a rebalance's or a shutdown's: it takes no lease.
  datatype Kind = Claim | Connect | Restart | Logout | Renew | Handoff

  datatype Outcome =
    | Refused        // a worker found another live instance as the owner
    | Beaten         // the key was there when SET NX came
    | Connected      // connect() succeeded
    | GivenBack      // its lease was released because it came to nothing
    | Drained        // the instance was draining: whatever it held was released
    | Superseded     // its epoch was no longer the one held
    | KeptLive       // a restart with nothing to restart left its lease to a live socket
    | LoggedOut
    | HandedOver
    | Renewed
    | Unreachable    // Redis did not answer the renewal
    | Discarded      // the renewal found the lease gone and dropped the socket

  datatype Pc =
    | Guarding                         // a worker looks at the owner first
    | Asking                           // the renewal script
    | Drawing                          // INCR is next
    | Drawn(epoch: nat)                // SET is next
    | Landed(epoch: nat)               // its SET went through, the reply is to be handled
    | Waiting(epoch: nat)              // booked; the claim's delay, or the reads of an explicit operation
    | Connecting(epoch: nat)           // in connect(), behind the phone's slot
    | Spawning(epoch: nat)
    | Probing(epoch: nat)              // reusing the live socket
    | Dropping                         // a handoff about to discard the socket
    | Clearing(under: Option<nat>)     // the socket is gone, and what is held is released in the end
    | Rereading(under: Option<nat>)    // nothing held: the key is read before a release
    | Rereleasing(under: Option<nat>, found: Option<nat>)
    | Forgetting                       // the renewal was answered "lost", or was beaten to the key
    | Discarding
    | Done(under: Option<nat>, outcome: Outcome)

  datatype Op = Op(kind: Kind, pc: Pc)

  // What is held, and the histories of every epoch that was.
  datatype Ledger = Ledger(
    held: Option<nat>,                 // heldLeaseEpochs.get(phone)
    booked: set<nat>,                  // every epoch that was ever put there
    replaced: map<nat, nat>,           // overwritten there by another epoch
    released: set<nat>,                // a release of exactly this epoch was sent
    lost: set<nat>,                    // deleted there by a renewal that found the key gone or foreign
    connects: set<nat>                 // a connect() under this epoch succeeded
  )

  datatype State = State(
    me: Instance,
    worker: bool,
    draining: bool,
    counter: nat,                      // the phone's two keys in Redis
    cell: Option<Lease>,
    connection: Option<nat>,           // the lease epoch of the registered local connection
    ledger: Ledger,
    ops: map<OpId, Op>,
    replies: seq<OpId>,                // operations whose SET landed and is not booked yet, in reply order
    inFlight: set<nat>                 // releases sent that Redis has not run
  )

  datatype Event =
    | Begin(op: OpId, kind: Kind)
    | Look(op: OpId, alive: Instance -> bool)
    | Ask(op: OpId, reachable: bool)
    | Incr(op: OpId)
    | Store(op: OpId)
    | Book(op: OpId)
    | Proceed(op: OpId)
    | Inspect(op: OpId, resumable: bool)
    | Drain(op: OpId, reuse: bool)
    | ProbeDead(op: OpId)
    | Settle(op: OpId, ok: bool, evicts: bool)
    | LogoutEnds(op: OpId)
    | GiveBack(op: OpId)
    | Reread(op: OpId)
    | SendReread(op: OpId)
    | Forget(op: OpId)
    | Discard(op: OpId)
    | ReleaseLands(epoch: nat)
    | OtherStores(owner: Instance, epoch: nat)
    | Expire
    | ConnectionGone
    | GiveUp                           // onSpawnFailed: the connection's own epoch goes back
    | StartDraining

  predicate IsExplicit(kind: Kind) {
    kind.Connect? || kind.Restart? || kind.Logout?
  }

  function Goto(s: State, op: OpId, pc: Pc): State
    requires op in s.ops
  {
    s.(ops := s.ops[op := s.ops[op].(pc := pc)])
  }

  // ---- the ledger ----

  function Booked(l: Ledger, e: nat): Ledger {
    l.(held := Some(e), booked := l.booked + {e},
       replaced := if l.held.Some? && l.held.value != e then l.replaced[l.held.value := e] else l.replaced)
  }

  // abandonExplicitLease: the memory only if it still is this epoch, the release always.
  function Abandoned(l: Ledger, e: nat): Ledger {
    l.(held := if l.held == Some(e) then None else l.held, released := l.released + {e})
  }

  function GaveBackHeld(l: Ledger): Ledger {
    if l.held.None? then l else l.(held := None, released := l.released + {l.held.value})
  }

  function Forgotten(l: Ledger): Ledger {
    if l.held.None? then l else l.(held := None, lost := l.lost + {l.held.value})
  }

  // How an epoch may have stopped being the one held.
  predicate Gone(l: Ledger, e: nat) {
    e in l.released || e in l.lost || (e in l.replaced && l.replaced[e] != e && l.replaced[e] in l.booked)
  }

  // ---- the steps ----

  function Abandon(s: State, e: nat): State {
    s.(ledger := Abandoned(s.ledger, e), inFlight := s.inFlight + {e})
  }

  // What releaseHeldLease does with an epoch held.
  function GiveBackHeld(s: State): State {
    if s.ledger.held.None? then s
    else s.(ledger := GaveBackHeld(s.ledger), inFlight := s.inFlight + {s.ledger.held.value})
  }

  // updateOptions applies a lease epoch forward only.
  function Forward(connection: Option<nat>, e: nat): Option<nat> {
    if connection.Some? && connection.value < e then Some(e) else connection
  }

  function StoreStep(s: State, op: OpId, e: nat): State
    requires op in s.ops
  {
    if IsExplicit(s.ops[op].kind) || s.cell.None? then
      Goto(s, op, Landed(e)).(cell := Some(LeaseStore.Lease(s.me, e)), replies := s.replies + [op])
    else Goto(s, op, if s.ops[op].kind.Renew? then Forgetting else Done(None, Beaten))
  }

  function Without(ops: seq<OpId>, op: OpId): (r: seq<OpId>)
    ensures forall o :: o in r <==> o in ops && o != op
    ensures op !in ops ==> r == ops
  {
    if ops == [] then []
    else
      assert ops == [ops[0]] + ops[1..];
      if ops[0] == op then Without(ops[1..], op) else [ops[0]] + Without(ops[1..], op)
  }

  function BookStep(s: State, op: OpId, e: nat): State
    requires op in s.ops
  {
    var s1 := s.(ledger := Booked(s.ledger, e), replies := Without(s.replies, op));
    if s.ops[op].kind.Renew? then Goto(s1, op, Done(Some(e), Renewed)).(connection := Forward(s.connection, e))
    else Goto(s1, op, Waiting(e))
  }

  function EndOf(kind: Kind): Outcome {
    match kind
    case Logout => LoggedOut
    case Handoff => HandedOver
    case _ => Drained
  }

  // releaseHeldLease up to its first await: the release of what is held, or the reading of the key.
  function ReleaseStep(s: State, op: OpId, under: Option<nat>): State
    requires op in s.ops
  {
    if s.ledger.held.Some? then Goto(GiveBackHeld(s), op, Done(under, EndOf(s.ops[op].kind)))
    else Goto(s, op, Rereading(under))
  }

  function ProceedStep(s: State, op: OpId, e: nat): State
    requires op in s.ops
  {
    if s.ops[op].kind.Claim? then
      if s.draining then ReleaseStep(s, op, Some(e))
      else if s.ledger.held != Some(e) then Goto(s, op, Done(Some(e), Superseded))
      else Goto(s, op, Connecting(e))
    else if s.ops[op].kind.Connect? then Goto(s, op, Connecting(e))
    else s
  }

  // unwindRestartLease
  function UnwindStep(s: State, op: OpId, e: nat): State
    requires op in s.ops
  {
    if s.ledger.held != Some(e) then Goto(s, op, Done(Some(e), Superseded))
    else if s.connection.Some? then Goto(s.(connection := Forward(s.connection, e)), op, Done(Some(e), KeptLive))
    else Goto(Abandon(s, e), op, Done(Some(e), GivenBack))
  }

  // connect() past the drain: a restart's resolver is asked here.
  function DrainStep(s: State, op: OpId, e: nat, reuse: bool): State
    requires op in s.ops
  {
    if s.ops[op].kind.Restart? && s.ledger.held != Some(e) then Goto(s, op, Done(Some(e), Superseded))
    else if reuse && s.connection.Some? && !s.ops[op].kind.Restart?
    then Goto(s.(connection := Forward(s.connection, e)), op, Probing(e))
    else Goto(s.(connection := Some(e)), op, Spawning(e))
  }

  // `evicts`: a rejected spawn found its own connection still registered.
  function SettleStep(s: State, op: OpId, e: nat, ok: bool, evicts: bool): State
    requires op in s.ops
  {
    if ok then Goto(s.(ledger := s.ledger.(connects := s.ledger.connects + {e})), op, Done(Some(e), Connected))
    else
      var s1 := if s.ops[op].pc.Spawning? && evicts then s.(connection := None) else s;
      Goto(Abandon(s1, e), op, Done(Some(e), GivenBack))
  }

  function AskStep(s: State, op: OpId, reachable: bool): State
    requires op in s.ops
  {
    if !reachable then Goto(s, op, Done(None, Unreachable))
    else
      match LeaseStore.RenewReply(s.cell, s.me)
      case Renewed => Goto(s, op, Done(None, Renewed))
      case Missing => Goto(s, op, Drawing)
      case Lost => Goto(s, op, Forgetting)
  }

  predicate At(s: State, op: OpId, kind: Kind) {
    op in s.ops && s.ops[op].kind == kind
  }

  function OpStep(s: State, op: OpId, ev: Event): State
    requires op in s.ops
  {
    var pc := s.ops[op].pc;
    match ev
    case Look(_, alive) =>
      if !pc.Guarding? then s
      else if s.cell.Some? && s.cell.value.owner != s.me && alive(s.cell.value.owner)
        then Goto(s, op, Done(None, Refused))
      else Goto(s, op, Drawing)
    case Ask(_, reachable) => if pc.Asking? then AskStep(s, op, reachable) else s
    case Incr(_) => if pc.Drawing? then Goto(s.(counter := s.counter + 1), op, Drawn(s.counter + 1)) else s
    case Store(_) => if pc.Drawn? then StoreStep(s, op, pc.epoch) else s
    case Book(_) => if pc.Landed? then BookStep(s, op, pc.epoch) else s
    case Proceed(_) => if pc.Waiting? then ProceedStep(s, op, pc.epoch) else s
    case Inspect(_, resumable) =>
      if !(pc.Waiting? && s.ops[op].kind.Restart?) then s
      else if resumable then Goto(s, op, Connecting(pc.epoch)) else UnwindStep(s, op, pc.epoch)
    case Drain(_, reuse) => if pc.Connecting? then DrainStep(s, op, pc.epoch, reuse) else s
    case ProbeDead(_) => if pc.Probing? then Goto(s.(connection := None), op, Connecting(pc.epoch)) else s
    case Settle(_, ok, evicts) =>
      if pc.Spawning? || pc.Probing? then SettleStep(s, op, pc.epoch, ok, evicts) else s
    case LogoutEnds(_) =>
      if pc.Waiting? && s.ops[op].kind.Logout? then Goto(s.(connection := None), op, Clearing(Some(pc.epoch))) else s
    case GiveBack(_) => if pc.Clearing? then ReleaseStep(s, op, pc.under) else s
    case Reread(_) =>
      if !pc.Rereading? then s
      else
        var found := if s.cell.Some? && s.cell.value.owner == s.me then Some(s.cell.value.epoch) else None;
        Goto(s, op, Rereleasing(pc.under, found))
    case SendReread(_) =>
      if !pc.Rereleasing? then s
      else
        var s1 := Goto(s, op, Done(pc.under, EndOf(s.ops[op].kind)));
        if pc.found.None? then s1
        else s1.(ledger := s.ledger.(released := s.ledger.released + {pc.found.value}),
                 inFlight := s.inFlight + {pc.found.value})
    case Forget(_) => if pc.Forgetting? then Goto(s.(ledger := Forgotten(s.ledger)), op, Discarding) else s
    case Discard(_) =>
      if pc.Discarding? then Goto(s.(connection := None), op, Done(None, Discarded))
      else if pc.Dropping? then Goto(s.(connection := None), op, Clearing(None)) else s
    case _ => s
  }

  function Step(s: State, ev: Event): State {
    match ev
    case Begin(op, kind) =>
      if op in s.ops then s
      else
        s.(ops := s.ops[op := Op(kind, if kind.Renew? then Asking else if kind.Handoff? then Dropping
                                       else if s.worker && IsExplicit(kind) then Guarding else Drawing)])
    case ReleaseLands(e) =>
      if e in s.inFlight then s.(cell := LeaseStore.AfterRelease(s.cell, s.me, e), inFlight := s.inFlight - {e}) else s
    case OtherStores(owner, e) =>
      if owner == s.me then s else s.(cell := Some(LeaseStore.Lease(owner, e)), counter := s.counter + 1)
    case Expire => s.(cell := None)
    case ConnectionGone => s.(connection := None)
    case GiveUp => if s.connection.Some? then Abandon(s, s.connection.value).(connection := None) else s
    case StartDraining => s.(draining := true)
    case _ => if ev.op in s.ops then OpStep(s, ev.op, ev) else s
  }

  function Run(s: State, es: seq<Event>): State
    decreases |es|
  {
    if es == [] then s else Run(Step(s, es[0]), es[1..])
  }

  function Boot(me: Instance, worker: bool): State {
    State(me, worker, false, 0, None, None, Ledger(None, {}, map[], {}, {}, {}), map[], [], {})
  }

  // ---- every lease is accounted for ----

  ghost predicate LedgerOk(l: Ledger) {
    && (l.held.Some? ==> l.held.value in l.booked)
    && (forall e | e in l.booked :: l.held == Some(e) || Gone(l, e))
    && (forall e | e in l.replaced :: l.replaced[e] != e && l.replaced[e] in l.booked)
  }

  // The histories only grow.
  ghost predicate Grows(l: Ledger, l': Ledger) {
    && l.booked <= l'.booked && l.released <= l'.released && l.lost <= l'.lost && l.connects <= l'.connects
    && (forall e | e in l.replaced :: e in l'.replaced)
  }

  predicate IsUsing(pc: Pc) {
    pc.Waiting? || pc.Connecting? || pc.Spawning? || pc.Probing?
  }

  predicate IsReleasing(pc: Pc) {
    pc.Clearing? || pc.Rereading? || pc.Rereleasing?
  }

  // What an operation may have made of the lease it booked.
  predicate OutcomeOk(l: Ledger, e: nat, o: Outcome) {
    match o
    case Connected => e in l.connects
    case GivenBack => e in l.released
    case Drained => Gone(l, e)
    case Superseded => Gone(l, e)
    case LoggedOut => Gone(l, e)
    case _ => true
  }

  // Which operations end how.
  predicate EndsSo(kind: Kind, under: Option<nat>, o: Outcome) {
    match o
    case Refused => IsExplicit(kind) && under.None?
    case Beaten => kind.Claim? && under.None?
    case KeptLive => kind.Restart? && under.Some?
    case LoggedOut => kind.Logout? && under.Some?
    case HandedOver => kind.Handoff? && under.None?
    case Renewed => kind.Renew?
    case Unreachable => kind.Renew? && under.None?
    case Discarded => kind.Renew? && under.None?
    case Drained => kind.Claim? && under.Some?
    case Superseded => (kind.Claim? || kind.Restart?) && under.Some?
    case Connected => (kind.Claim? || kind.Connect? || kind.Restart?) && under.Some?
    case GivenBack => (kind.Claim? || kind.Connect? || kind.Restart?) && under.Some?
  }

  // Which operations get where.
  predicate KindOk(o: Op) {
    && (o.pc.Asking? || o.pc.Forgetting? || o.pc.Discarding? ==> o.kind.Renew?)
    && (o.pc.Guarding? ==> IsExplicit(o.kind))
    && (o.pc.Drawing? || o.pc.Drawn? || o.pc.Landed? ==> !o.kind.Handoff?)
    && (IsUsing(o.pc) ==> !o.kind.Renew? && !o.kind.Handoff?)
    && (o.pc.Connecting? || o.pc.Spawning? || o.pc.Probing? ==> !o.kind.Logout?)
    && (o.pc.Dropping? ==> o.kind.Handoff?)
    && (IsReleasing(o.pc) ==> if o.kind.Handoff? then o.pc.under.None? else o.pc.under.Some?)
    && (o.pc.Clearing? ==> o.kind.Logout? || o.kind.Handoff?)
    && (o.pc.Rereading? || o.pc.Rereleasing? ==> o.kind.Claim? || o.kind.Logout? || o.kind.Handoff?)
    && (o.pc.Done? ==> EndsSo(o.kind, o.pc.under, o.pc.outcome))
  }

  ghost predicate OpOk(l: Ledger, o: Op) {
    && KindOk(o)
    && (IsUsing(o.pc) ==> o.pc.epoch in l.booked)
    && (IsReleasing(o.pc) && o.pc.under.Some? ==> o.pc.under.value in l.booked)
    && (IsReleasing(o.pc) && o.pc.under.Some? && !o.pc.Clearing? ==> Gone(l, o.pc.under.value))
    && (o.pc.Done? && o.pc.under.Some? ==> o.pc.under.value in l.booked && OutcomeOk(l, o.pc.under.value, o.pc.outcome))
  }

  ghost predicate Accounts(s: State) {
    LedgerOk(s.ledger) && forall op | op in s.ops :: OpOk(s.ledger, s.ops[op])
  }

  lemma OpKept(l: Ledger, l': Ledger, o: Op)
    requires OpOk(l, o) && LedgerOk(l') && Grows(l, l')
    ensures OpOk(l', o)
  {
  }

  lemma OthersKept(s: State, s': State)
    requires Accounts(s) && LedgerOk(s'.ledger) && Grows(s.ledger, s'.ledger)
    ensures forall o | o in s.ops :: OpOk(s'.ledger, s.ops[o])
  {
    forall o | o in s.ops
      ensures OpOk(s'.ledger, s.ops[o])
    {
      OpKept(s.ledger, s'.ledger, s.ops[o]);
    }
  }

  // A move of one operation: the ledger stays in order and grows, and the operation is where it may be.
  ghost predicate Moves(s: State, s': State, op: OpId)
    requires op in s.ops
  {
    && op in s'.ops && s'.ops == s.ops[op := s'.ops[op]] && s'.ops[op].kind == s.ops[op].kind
    && LedgerOk(s'.ledger) && Grows(s.ledger, s'.ledger) && OpOk(s'.ledger, s'.ops[op])
  }

  lemma MoveKeepsAccounts(s: State, s': State, op: OpId)
    requires Accounts(s) && op in s.ops && Moves(s, s', op)
    ensures Accounts(s')
  {
    OthersKept(s, s');
  }

  lemma BookedOk(l: Ledger, e: nat)
    requires LedgerOk(l)
    ensures LedgerOk(Booked(l, e)) && Grows(l, Booked(l, e))
  {
    var b := Booked(l, e);
    forall x | x in b.booked
      ensures b.held == Some(x) || Gone(b, x)
    {
      assert x != e ==> l.held == Some(x) || Gone(l, x);
    }
  }

  lemma GivingUpOk(l: Ledger, e: nat)
    requires LedgerOk(l)
    ensures LedgerOk(Abandoned(l, e)) && Grows(l, Abandoned(l, e))
    ensures LedgerOk(GaveBackHeld(l)) && Grows(l, GaveBackHeld(l))
    ensures LedgerOk(Forgotten(l)) && Grows(l, Forgotten(l))
    ensures LedgerOk(l.(released := l.released + {e})) && Grows(l, l.(released := l.released + {e}))
  {
  }

  lemma StoreMoves(s: State, op: OpId, e: nat)
    requires Accounts(s) && op in s.ops && s.ops[op].pc == Drawn(e)
    ensures Moves(s, StoreStep(s, op, e), op)
  {
  }

  lemma BookMoves(s: State, op: OpId, e: nat)
    requires Accounts(s) && op in s.ops && s.ops[op].pc == Landed(e)
    ensures Moves(s, BookStep(s, op, e), op)
  {
    BookedOk(s.ledger, e);
  }

  lemma ProceedMoves(s: State, op: OpId, e: nat)
    requires Accounts(s) && op in s.ops && s.ops[op].pc == Waiting(e)
    ensures Moves(s, ProceedStep(s, op, e), op)
  {
    assert OpOk(s.ledger, s.ops[op]);
    if s.ops[op].kind.Claim? && s.draining {
      ReleaseMoves(s, op, Some(e));
    }
  }

  lemma UnwindMoves(s: State, op: OpId, e: nat)
    requires Accounts(s) && op in s.ops && s.ops[op] == Op(Restart, Waiting(e))
    ensures Moves(s, UnwindStep(s, op, e), op)
  {
    assert OpOk(s.ledger, s.ops[op]);
    GivingUpOk(s.ledger, e);
  }

  lemma DrainMoves(s: State, op: OpId, e: nat, reuse: bool)
    requires Accounts(s) && op in s.ops && s.ops[op].pc == Connecting(e)
    ensures Moves(s, DrainStep(s, op, e, reuse), op)
  {
    assert OpOk(s.ledger, s.ops[op]);
  }

  lemma SettleMoves(s: State, op: OpId, e: nat, ok: bool, evicts: bool)
    requires Accounts(s) && op in s.ops && (s.ops[op].pc == Spawning(e) || s.ops[op].pc == Probing(e))
    ensures Moves(s, SettleStep(s, op, e, ok, evicts), op)
  {
    assert OpOk(s.ledger, s.ops[op]);
    GivingUpOk(s.ledger, e);
  }

  lemma ReleaseMoves(s: State, op: OpId, under: Option<nat>)
    requires Accounts(s) && op in s.ops && (s.ops[op].kind.Claim? || s.ops[op].kind.Logout? || s.ops[op].kind.Handoff?)
    requires if s.ops[op].kind.Handoff? then under.None? else under.Some? && under.value in s.ledger.booked
    ensures Moves(s, ReleaseStep(s, op, under), op)
  {
    GivingUpOk(s.ledger, 0);
  }

  lemma LogoutEventMoves(s: State, op: OpId, ev: Event)
    requires Accounts(s) && op in s.ops && (ev.LogoutEnds? || ev.GiveBack?)
    ensures Moves(s, OpStep(s, op, ev), op)
  {
    StayMoves(s, op);
    assert OpOk(s.ledger, s.ops[op]);
    if ev.GiveBack? && s.ops[op].pc.Clearing? {
      ReleaseMoves(s, op, s.ops[op].pc.under);
    }
  }

  predicate IsOpEvent(ev: Event) {
    || ev.Look? || ev.Ask? || ev.Incr? || ev.Store? || ev.Book?
    || ev.Proceed? || ev.Inspect? || ev.Drain? || ev.ProbeDead?
    || ev.Settle? || ev.LogoutEnds? || ev.GiveBack? || ev.Reread? || ev.SendReread? || ev.Forget? || ev.Discard?
  }

  lemma StayMoves(s: State, op: OpId)
    requires Accounts(s) && op in s.ops
    ensures Moves(s, s, op)
  {
    assert s.ops == s.ops[op := s.ops[op]];
  }

  lemma LookMoves(s: State, op: OpId, ev: Event)
    requires Accounts(s) && op in s.ops && ev.Look?
    ensures Moves(s, OpStep(s, op, ev), op)
  {
    StayMoves(s, op);
  }

  lemma AskMoves(s: State, op: OpId, ev: Event)
    requires Accounts(s) && op in s.ops && ev.Ask?
    ensures Moves(s, OpStep(s, op, ev), op)
  {
    if s.ops[op].pc.Asking? {
      var s' := AskStep(s, op, ev.reachable);
      assert OpOk(s.ledger, s.ops[op]) && s'.ledger == s.ledger;
      assert OpStep(s, op, ev) == s';
    } else {
      StayMoves(s, op);
    }
  }

  lemma SetMoves(s: State, op: OpId, ev: Event)
    requires Accounts(s) && op in s.ops && (ev.Incr? || ev.Store? || ev.Book?)
    ensures Moves(s, OpStep(s, op, ev), op)
  {
    var pc := s.ops[op].pc;
    StayMoves(s, op);
    if ev.Store? && pc.Drawn? {
      StoreMoves(s, op, pc.epoch);
    } else if ev.Book? && pc.Landed? {
      BookMoves(s, op, pc.epoch);
    }
  }

  lemma UseEventMoves(s: State, op: OpId, ev: Event)
    requires Accounts(s) && op in s.ops
    requires ev.Proceed? || ev.Inspect? || ev.Drain? || ev.ProbeDead? || ev.Settle?
    ensures Moves(s, OpStep(s, op, ev), op)
  {
    var pc := s.ops[op].pc;
    StayMoves(s, op);
    if ev.Proceed? && pc.Waiting? {
      ProceedMoves(s, op, pc.epoch);
    } else if ev.Inspect? && pc.Waiting? && s.ops[op].kind.Restart? {
      UnwindMoves(s, op, pc.epoch);
    } else if ev.Drain? && pc.Connecting? {
      DrainMoves(s, op, pc.epoch, ev.reuse);
    } else if ev.Settle? && (pc.Spawning? || pc.Probing?) {
      SettleMoves(s, op, pc.epoch, ev.ok, ev.evicts);
    }
  }

  lemma RereadMoves(s: State, op: OpId, ev: Event)
    requires Accounts(s) && op in s.ops && ev.Reread?
    ensures Moves(s, OpStep(s, op, ev), op)
  {
    StayMoves(s, op);
    assert OpOk(s.ledger, s.ops[op]);
  }

  lemma SendRereadMoves(s: State, op: OpId, ev: Event)
    requires Accounts(s) && op in s.ops && ev.SendReread?
    ensures Moves(s, OpStep(s, op, ev), op)
  {
    var pc := s.ops[op].pc;
    StayMoves(s, op);
    assert OpOk(s.ledger, s.ops[op]);
    GivingUpOk(s.ledger, if pc.Rereleasing? && pc.found.Some? then pc.found.value else 0);
  }

  lemma ForgetMoves(s: State, op: OpId, ev: Event)
    requires Accounts(s) && op in s.ops && ev.Forget?
    ensures Moves(s, OpStep(s, op, ev), op)
  {
    StayMoves(s, op);
    assert OpOk(s.ledger, s.ops[op]);
    GivingUpOk(s.ledger, 0);
  }

  lemma DiscardMoves(s: State, op: OpId, ev: Event)
    requires Accounts(s) && op in s.ops && ev.Discard?
    ensures Moves(s, OpStep(s, op, ev), op)
  {
    StayMoves(s, op);
    assert OpOk(s.ledger, s.ops[op]);
  }

  lemma OpEventIsOpStep(s: State, ev: Event)
    requires IsOpEvent(ev)
    ensures Step(s, ev) == if ev.op in s.ops then OpStep(s, ev.op, ev) else s
  {
  }

  lemma OpEventMoves(s: State, ev: Event)
    requires Accounts(s) && IsOpEvent(ev) && ev.op in s.ops
    ensures Moves(s, OpStep(s, ev.op, ev), ev.op)
  {
    if ev.Look? {
      LookMoves(s, ev.op, ev);
    } else if ev.Ask? {
      AskMoves(s, ev.op, ev);
    } else if ev.Incr? || ev.Store? || ev.Book? {
      SetMoves(s, ev.op, ev);
    } else if ev.Reread? {
      RereadMoves(s, ev.op, ev);
    } else if ev.SendReread? {
      SendRereadMoves(s, ev.op, ev);
    } else if ev.LogoutEnds? || ev.GiveBack? {
      LogoutEventMoves(s, ev.op, ev);
    } else if ev.Forget? {
      ForgetMoves(s, ev.op, ev);
    } else if ev.Discard? {
      DiscardMoves(s, ev.op, ev);
    } else {
      UseEventMoves(s, ev.op, ev);
    }
  }

  lemma EnvironmentKeepsAccounts(s: State, ev: Event)
    requires Accounts(s) && !IsOpEvent(ev)
    ensures Accounts(Step(s, ev))
  {
    GivingUpOk(s.ledger, if s.connection.Some? then s.connection.value else 0);
    var s' := Step(s, ev);
    assert LedgerOk(s'.ledger) && Grows(s.ledger, s'.ledger);
    OthersKept(s, s');
  }

  lemma StepKeepsAccounts(s: State, ev: Event)
    requires Accounts(s)
    ensures Accounts(Step(s, ev))
  {
    if IsOpEvent(ev) {
      OpEventIsOpStep(s, ev);
      if ev.op in s.ops {
        OpEventMoves(s, ev);
        MoveKeepsAccounts(s, OpStep(s, ev.op, ev), ev.op);
      }
    } else {
      EnvironmentKeepsAccounts(s, ev);
    }
  }

  lemma {:induction false} RunKeepsAccounts(s: State, es: seq<Event>)
    requires Accounts(s)
    ensures Accounts(Run(s, es))
    decreases |es|
  {
    if es != [] {
      StepKeepsAccounts(s, es[0]);
      RunKeepsAccounts(Step(s, es[0]), es[1..]);
    }
  }

  /**
   Every lease this instance ever held, by whatever operation and in every run: it is the one held now, another
   held epoch took its place, a release of exactly it was sent, or a renewal that found the key gone or foreign
   deleted it.
   */
  lemma EveryLeaseIsAccounted(me: Instance, worker: bool, es: seq<Event>, e: nat)
    requires e in Run(Boot(me, worker), es).ledger.booked
    ensures var l := Run(Boot(me, worker), es).ledger;
            l.held == Some(e) || e in l.released || e in l.lost
            || (e in l.replaced && l.replaced[e] != e && l.replaced[e] in l.booked)
  {
    RunKeepsAccounts(Boot(me, worker), es);
  }

  /**
   A claim that won its lease ends connected under that epoch, with a release of it sent, or with that epoch
   replaced by another held one or lost to a renewal; a claim that ends without a lease was beaten to the key.
   */
  lemma ClaimsAreSettled(me: Instance, worker: bool, es: seq<Event>, op: OpId)
    requires At(Run(Boot(me, worker), es), op, Claim) && Run(Boot(me, worker), es).ops[op].pc.Done?
    ensures var s := Run(Boot(me, worker), es);
            var Done(under, o) := s.ops[op].pc;
            && (under.None? <==> o.Beaten?)
            && (under.Some? ==>
                  || (o.Connected? && under.value in s.ledger.connects)
                  || (o.GivenBack? && under.value in s.ledger.released)
                  || ((o.Superseded? || o.Drained?) && Gone(s.ledger, under.value)))
  {
    RunKeepsAccounts(Boot(me, worker), es);
    var s := Run(Boot(me, worker), es);
    assert OpOk(s.ledger, s.ops[op]);
  }

  // ---- no lease is leaked ----

  // The epoch is held, is about to be released, or a renewal deleted it.
  predicate Covered(s: State, e: nat) {
    s.ledger.held == Some(e) || e in s.inFlight || e in s.ledger.lost
  }

  ghost predicate RepliesOk(s: State) {
    && (forall op | op in s.replies :: op in s.ops && s.ops[op].pc.Landed?)
    && AllDiffer(s.replies)
    && (forall op | op in s.ops && s.ops[op].pc.Landed? :: op in s.replies)
  }

  predicate IsMine(s: State) {
    s.cell.Some? && s.cell.value.owner == s.me
  }

  // A lease under our name in Redis belongs to the last SET whose reply is outstanding, or else is covered.
  ghost predicate KeyOk(s: State) {
    IsMine(s) ==>
      if s.replies == [] then Covered(s, s.cell.value.epoch)
      else
        var last := s.replies[|s.replies| - 1];
        last in s.ops && s.ops[last].pc == Landed(s.cell.value.epoch)
  }

  ghost predicate NoLeak(s: State) {
    RepliesOk(s) && KeyOk(s)
  }

  // The replies of one connection to Redis are handled in the order its commands ran.
  ghost predicate InOrder(s: State, ev: Event) {
    ev.Book? && ev.op in s.ops && s.ops[ev.op].pc.Landed? ==> s.replies != [] && s.replies[0] == ev.op
  }

  ghost predicate InOrderRun(s: State, es: seq<Event>)
    decreases |es|
  {
    es == [] || (InOrder(s, es[0]) && InOrderRun(Step(s, es[0]), es[1..]))
  }

  // A stretch that neither sets the key nor books: nothing covered is uncovered.
  ghost predicate Spares(s: State, s': State, op: OpId)
    requires op in s.ops
  {
    && op in s'.ops && s'.ops == s.ops[op := s'.ops[op]] && !s.ops[op].pc.Landed? && !s'.ops[op].pc.Landed?
    && s'.replies == s.replies && s'.cell == s.cell && s'.me == s.me
    && forall e | Covered(s, e) :: Covered(s', e)
  }

  // And what is held stays held, or its release is on its way.
  ghost predicate HandsOver(s: State, s': State) {
    && s'.replies == s.replies && s'.cell == s.cell && s'.me == s.me && s.inFlight <= s'.inFlight
    && (s.ledger.held.Some? ==> s'.ledger.held == s.ledger.held || s.ledger.held.value in s'.inFlight)
  }

  lemma SparingKeepsNoLeak(s: State, s': State, op: OpId)
    requires NoLeak(s) && op in s.ops && Spares(s, s', op)
    ensures NoLeak(s')
  {
  }

  lemma StoreKeepsNoLeak(s: State, op: OpId, e: nat)
    requires NoLeak(s) && op in s.ops && s.ops[op].pc == Drawn(e)
    ensures NoLeak(StoreStep(s, op, e))
  {
    var s' := StoreStep(s, op, e);
    if s'.replies != s.replies {
      assert forall i | 0 <= i < |s.replies| :: s'.replies[i] == s.replies[i] && s.replies[i] != op;
      assert s'.replies[|s.replies|] == op;
    } else {
      assert op !in s.replies;
      SparingKeepsNoLeak(s, s', op);
    }
  }

  ghost predicate AllDiffer(replies: seq<OpId>) {
    forall i, j | 0 <= i < j < |replies| :: replies[i] != replies[j]
  }

  lemma HeadOff(replies: seq<OpId>)
    requires replies != [] && AllDiffer(replies)
    ensures AllDiffer(replies[1..]) && replies[0] !in replies[1..]
    ensures Without(replies, replies[0]) == replies[1..]
  {
    var rest := replies[1..];
    forall i | 0 <= i < |rest|
      ensures rest[i] != replies[0]
    {
      assert rest[i] == replies[i + 1];
    }
    assert Without(replies, replies[0]) == Without(rest, replies[0]);
  }

  // All that booking does to the operations and the replies.
  lemma BookShape(s: State, op: OpId, e: nat)
    requires RepliesOk(s) && op in s.ops && s.ops[op].pc == Landed(e) && s.replies != [] && s.replies[0] == op
    ensures var s' := BookStep(s, op, e);
            && s'.replies == s.replies[1..] && s'.ops.Keys == s.ops.Keys && !s'.ops[op].pc.Landed?
            && (forall o | o in s.ops && o != op :: s'.ops[o] == s.ops[o])
            && s'.cell == s.cell && s'.me == s.me && s'.ledger.held == Some(e)
  {
    HeadOff(s.replies);
  }

  lemma BookKeepsReplies(s: State, op: OpId, e: nat)
    requires RepliesOk(s) && op in s.ops && s.ops[op].pc == Landed(e) && s.replies != [] && s.replies[0] == op
    ensures RepliesOk(BookStep(s, op, e))
  {
    BookShape(s, op, e);
    HeadOff(s.replies);
    var rest := s.replies[1..];
    assert forall o :: o in rest <==> o in s.replies && o != op;
  }

  lemma BookKeepsNoLeak(s: State, op: OpId, e: nat)
    requires NoLeak(s) && op in s.ops && s.ops[op].pc == Landed(e) && s.replies != [] && s.replies[0] == op
    ensures NoLeak(BookStep(s, op, e))
  {
    BookKeepsReplies(s, op, e);
    BookShape(s, op, e);
    var n := |s.replies|;
    if n > 1 {
      assert s.replies[1..][n - 2] == s.replies[n - 1] && s.replies[0] != s.replies[n - 1];
    }
  }

  lemma AskSpares(s: State, op: OpId, ev: Event)
    requires op in s.ops && (ev.Look? || ev.Ask? || ev.Incr?) && !s.ops[op].pc.Landed?
    ensures Spares(s, OpStep(s, op, ev), op)
    ensures HandsOver(s, OpStep(s, op, ev))
  {
    assert s.ops == s.ops[op := s.ops[op]];
  }

  lemma ProceedSpares(s: State, op: OpId, ev: Event)
    requires op in s.ops && !s.ops[op].pc.Landed? && (ev.Proceed? || ev.ProbeDead?)
    ensures Spares(s, OpStep(s, op, ev), op)
    ensures HandsOver(s, OpStep(s, op, ev))
  {
    assert s.ops == s.ops[op := s.ops[op]];
  }

  lemma InspectSpares(s: State, op: OpId, ev: Event)
    requires op in s.ops && !s.ops[op].pc.Landed? && (ev.Inspect? || ev.Drain?)
    ensures Spares(s, OpStep(s, op, ev), op)
    ensures HandsOver(s, OpStep(s, op, ev))
  {
    assert s.ops == s.ops[op := s.ops[op]];
  }

  lemma SettleSpares(s: State, op: OpId, ev: Event)
    requires op in s.ops && !s.ops[op].pc.Landed? && (ev.Settle? || ev.LogoutEnds? || ev.GiveBack?)
    ensures Spares(s, OpStep(s, op, ev), op)
    ensures HandsOver(s, OpStep(s, op, ev))
  {
    assert s.ops == s.ops[op := s.ops[op]];
  }

  lemma EndSpares(s: State, op: OpId, ev: Event)
    requires op in s.ops && !s.ops[op].pc.Landed? && (ev.Reread? || ev.SendReread? || ev.Forget? || ev.Discard?)
    ensures Spares(s, OpStep(s, op, ev), op)
    ensures !ev.Forget? ==> HandsOver(s, OpStep(s, op, ev))
  {
    assert s.ops == s.ops[op := s.ops[op]];
  }

  lemma LandedStays(s: State, op: OpId, ev: Event)
    requires op in s.ops && s.ops[op].pc.Landed? && IsOpEvent(ev) && !ev.Book?
    ensures OpStep(s, op, ev) == s
  {
  }

  lemma UseSpares(s: State, op: OpId, ev: Event)
    requires op in s.ops && !s.ops[op].pc.Landed? && IsOpEvent(ev) && !ev.Book? && !ev.Store?
    ensures Spares(s, OpStep(s, op, ev), op)
    ensures !ev.Forget? ==> HandsOver(s, OpStep(s, op, ev))
  {
    if ev.Look? || ev.Ask? || ev.Incr? {
      AskSpares(s, op, ev);
    } else if ev.Proceed? || ev.ProbeDead? {
      ProceedSpares(s, op, ev);
    } else if ev.Inspect? || ev.Drain? {
      InspectSpares(s, op, ev);
    } else if ev.Settle? || ev.LogoutEnds? || ev.GiveBack? {
      SettleSpares(s, op, ev);
    } else {
      EndSpares(s, op, ev);
    }
  }

  lemma OpEventKeepsNoLeak(s: State, ev: Event)
    requires NoLeak(s) && IsOpEvent(ev) && ev.op in s.ops && InOrder(s, ev)
    ensures NoLeak(OpStep(s, ev.op, ev))
  {
    var op := ev.op;
    var pc := s.ops[op].pc;
    if ev.Book? {
      if pc.Landed? {
        BookKeepsNoLeak(s, op, pc.epoch);
      }
    } else if pc.Landed? {
      LandedStays(s, op, ev);
    } else if ev.Store? {
      if pc.Drawn? {
        StoreKeepsNoLeak(s, op, pc.epoch);
      }
    } else {
      UseSpares(s, op, ev);
      SparingKeepsNoLeak(s, OpStep(s, op, ev), op);
    }
  }

  lemma StepKeepsNoLeak(s: State, ev: Event)
    requires NoLeak(s) && InOrder(s, ev)
    ensures NoLeak(Step(s, ev))
  {
    if IsOpEvent(ev) {
      OpEventIsOpStep(s, ev);
      if ev.op in s.ops {
        OpEventKeepsNoLeak(s, ev);
      }
    } else {
      EnvironmentKeepsNoLeak(s, ev);
    }
  }

  lemma BeginKeepsNoLeak(s: State, op: OpId, kind: Kind)
    requires NoLeak(s)
    ensures NoLeak(Step(s, Begin(op, kind)))
  {
    var s' := Step(s, Begin(op, kind));
    assert forall o | o in s.ops :: o in s'.ops && s'.ops[o] == s.ops[o];
    assert forall o | o in s'.ops && o !in s.ops :: !s'.ops[o].pc.Landed?;
  }

  lemma ReleaseKeepsNoLeak(s: State, e: nat)
    requires NoLeak(s)
    ensures NoLeak(Step(s, ReleaseLands(e)))
  {
  }

  lemma KeyEventKeepsNoLeak(s: State, ev: Event)
    requires NoLeak(s) && (ev.OtherStores? || ev.Expire? || ev.ConnectionGone? || ev.StartDraining?)
    ensures NoLeak(Step(s, ev))
  {
  }

  lemma HandoverKeepsNoLeak(s: State, ev: Event)
    requires NoLeak(s) && ev.GiveUp?
    ensures NoLeak(Step(s, ev))
  {
    var s' := Step(s, ev);
    assert s'.replies == s.replies && s'.me == s.me && s'.ops == s.ops && s'.cell == s.cell;
    assert forall e | Covered(s, e) :: Covered(s', e);
  }

  lemma EnvironmentKeepsNoLeak(s: State, ev: Event)
    requires NoLeak(s) && !IsOpEvent(ev)
    ensures NoLeak(Step(s, ev))
  {
    if ev.Begin? {
      BeginKeepsNoLeak(s, ev.op, ev.kind);
    } else if ev.ReleaseLands? {
      ReleaseKeepsNoLeak(s, ev.epoch);
    } else if ev.GiveUp? {
      HandoverKeepsNoLeak(s, ev);
    } else {
      KeyEventKeepsNoLeak(s, ev);
    }
  }

  lemma {:induction false} RunKeepsNoLeak(s: State, es: seq<Event>)
    requires NoLeak(s) && InOrderRun(s, es)
    ensures NoLeak(Run(s, es))
    decreases |es|
  {
    if es != [] {
      StepKeepsNoLeak(s, es[0]);
      RunKeepsNoLeak(Step(s, es[0]), es[1..]);
    }
  }

  /**
   No lease leaks: with replies handled in order, whenever nothing is on its way to or from Redis, a lease the key
   holds under this instance's name is the very one it holds in memory, or one a renewal deleted there.
   */
  lemma NoLeaseLeaks(me: Instance, worker: bool, es: seq<Event>)
    requires InOrderRun(Boot(me, worker), es)
    requires Run(Boot(me, worker), es).replies == [] && Run(Boot(me, worker), es).inFlight == {}
    ensures var s := Run(Boot(me, worker), es);
            s.cell.Some? && s.cell.value.owner == me ==>
              s.ledger.held == Some(s.cell.value.epoch) || s.cell.value.epoch in s.ledger.lost
  {
    RunKeepsNoLeak(Boot(me, worker), es);
    RunKeepsMe(Boot(me, worker), es);
  }

  lemma {:induction false} RunKeepsMe(s: State, es: seq<Event>)
    ensures Run(s, es).me == s.me
    decreases |es|
  {
    if es != [] {
      StepKeepsMe(s, es[0]);
      RunKeepsMe(Step(s, es[0]), es[1..]);
    }
  }

  lemma StepKeepsMe(s: State, ev: Event)
    ensures Step(s, ev).me == s.me
  {
    if IsOpEvent(ev) {
      OpEventIsOpStep(s, ev);
    }
  }

  // A lease in Redis under our name that nobody will use or give back.
  predicate Leaked(s: State) {
    IsMine(s) && s.replies == [] && s.ledger.held != Some(s.cell.value.epoch) && s.cell.value.epoch !in s.inFlight
  }

  // The one event that leaks: the renewal's deletion, of an epoch the key holds under our name.
  predicate DeletesTheStored(s: State, ev: Event) {
    && ev.Forget? && ev.op in s.ops && s.ops[ev.op].pc.Forgetting?
    && s.ledger.held.Some? && s.ledger.held.value !in s.inFlight && s.replies == []
    && s.cell == Some(LeaseStore.Lease(s.me, s.ledger.held.value))
  }

  lemma BookLeaksNothing(s: State, op: OpId, e: nat)
    requires NoLeak(s) && op in s.ops && s.ops[op].pc == Landed(e) && s.replies != [] && s.replies[0] == op
    ensures !Leaked(BookStep(s, op, e))
  {
    BookShape(s, op, e);
    assert s.replies[1..] == [] ==> s.replies[|s.replies| - 1] == op;
  }

  lemma StoreLeaksNothing(s: State, op: OpId, e: nat)
    requires !Leaked(s) && op in s.ops && s.ops[op].pc == Drawn(e)
    ensures !Leaked(StoreStep(s, op, e))
  {
  }

  lemma HandingOverLeaksNothing(s: State, s': State)
    requires !Leaked(s) && HandsOver(s, s')
    ensures !Leaked(s')
  {
  }

  lemma ForgetLeaksIff(s: State, ev: Event)
    requires !Leaked(s) && ev.Forget? && ev.op in s.ops
    ensures Leaked(OpStep(s, ev.op, ev)) <==> DeletesTheStored(s, ev)
  {
  }

  lemma OpEventLeaksIff(s: State, ev: Event)
    requires NoLeak(s) && !Leaked(s) && IsOpEvent(ev) && ev.op in s.ops && InOrder(s, ev)
    ensures Leaked(OpStep(s, ev.op, ev)) <==> DeletesTheStored(s, ev)
  {
    var op := ev.op;
    var pc := s.ops[op].pc;
    if ev.Book? {
      if pc.Landed? {
        BookLeaksNothing(s, op, pc.epoch);
      }
    } else if pc.Landed? {
      LandedStays(s, op, ev);
    } else if ev.Store? {
      if pc.Drawn? {
        StoreLeaksNothing(s, op, pc.epoch);
      }
    } else if ev.Forget? {
      ForgetLeaksIff(s, ev);
    } else {
      UseSpares(s, op, ev);
      HandingOverLeaksNothing(s, OpStep(s, op, ev));
    }
  }

  /**
   Of all that can happen to a phone, one thing leaks a lease: a renewal that found the key gone or foreign deletes
   the held epoch when the key holds exactly that one, under our name, by then.
   */
  lemma LeaksOnlyByForgetting(s: State, ev: Event)
    requires NoLeak(s) && !Leaked(s) && InOrder(s, ev)
    ensures Leaked(Step(s, ev)) <==> DeletesTheStored(s, ev)
  {
    if IsOpEvent(ev) {
      OpEventIsOpStep(s, ev);
      if ev.op in s.ops {
        OpEventLeaksIff(s, ev);
      }
    }
  }

  // ---- one operation at a time ----

  // From its beginning to its lease being held, with nobody else in between.
  function Acquired(s: State, op: OpId, kind: Kind): State {
    s.(counter := s.counter + 1, cell := Some(LeaseStore.Lease(s.me, s.counter + 1)),
       ledger := Booked(s.ledger, s.counter + 1), ops := s.ops[op := Op(kind, Waiting(s.counter + 1))])
  }

  lemma AcquiresAlone(s: State, op: OpId, kind: Kind)
    requires op !in s.ops && !s.worker && s.replies == []
    requires IsExplicit(kind) || (kind.Claim? && s.cell == None)
    ensures Step(Step(Step(Step(s, Begin(op, kind)), Incr(op)), Store(op)), Book(op)) == Acquired(s, op, kind)
  {
    var s1 := Step(s, Begin(op, kind));
    assert s1.ops[op] == Op(kind, Drawing);
    var s2 := Step(s1, Incr(op));
    assert s2.ops[op] == Op(kind, Drawn(s.counter + 1));
    var s3 := Step(s2, Store(op));
    assert s3.ops[op] == Op(kind, Landed(s.counter + 1)) && s3.replies == [op];
    var s4 := Step(s3, Book(op));
    assert s4.ops == Acquired(s, op, kind).ops && s4.replies == [];
  }

  // And on to a socket of its own.
  function Serving(s: State, op: OpId, kind: Kind): State {
    var e := s.counter + 1;
    var a := Acquired(s, op, kind);
    a.(connection := Some(e), ledger := a.ledger.(connects := a.ledger.connects + {e}),
       ops := s.ops[op := Op(kind, Done(Some(e), Connected))])
  }

  lemma ServesAlone(s: State, op: OpId)
    requires op !in s.ops && !s.worker && s.replies == []
    ensures Step(Step(Step(Acquired(s, op, Connect), Proceed(op)), Drain(op, false)), Settle(op, true, true)) ==
            Serving(s, op, Connect)
  {
    var s1 := Step(Acquired(s, op, Connect), Proceed(op));
    assert s1.ops[op] == Op(Connect, Connecting(s.counter + 1));
    var s2 := Step(s1, Drain(op, false));
    assert s2.ops[op] == Op(Connect, Spawning(s.counter + 1)) && s2.connection == Some(s.counter + 1);
    var s3 := Step(s2, Settle(op, true, true));
    assert s3.ops == Serving(s, op, Connect).ops;
  }

  // ---- what each stretch does, and where it takes its operation ----

  function Moved(s: State, op: OpId, pc: Pc): State
    requires op in s.ops
  {
    s.(ops := s.ops[op := Op(s.ops[op].kind, pc)])
  }

  /** An operation begins once: a renewal asks, a handoff discards, a worker's explicit one looks, the rest draw. */
  lemma BeginsSo(s: State, op: OpId, kind: Kind)
    ensures Step(s, Begin(op, kind)) ==
            if op in s.ops then s
            else s.(ops := s.ops[op := Op(kind, match kind
                                                case Renew => Asking
                                                case Handoff => Dropping
                                                case Claim => Drawing
                                                case _ => if s.worker then Guarding else Drawing)])
  {
  }

  /** The worker's look refuses exactly another live owner's key; the INCR draws the next epoch. */
  lemma LooksAndDraws(s: State, op: OpId, alive: Instance -> bool)
    requires op in s.ops
    ensures s.ops[op].pc.Guarding? ==>
              Step(s, Look(op, alive)) ==
              Moved(s, op, if s.cell.Some? && s.cell.value.owner != s.me && alive(s.cell.value.owner)
                           then Done(None, Refused) else Drawing)
    ensures s.ops[op].pc.Drawing? ==>
              Step(s, Incr(op)) == Moved(s, op, Drawn(s.counter + 1)).(counter := s.counter + 1)
  {
  }

  /** An explicit operation's SET always lands, a claim's or renewal's exactly on an empty key; its reply is to come. */
  lemma StoresIff(s: State, op: OpId)
    requires op in s.ops && s.ops[op].pc.Drawn?
    ensures var kind, e := s.ops[op].kind, s.ops[op].pc.epoch;
            Step(s, Store(op)) ==
            if kind.Connect? || kind.Restart? || kind.Logout? || s.cell.None?
            then Moved(s, op, Landed(e)).(cell := Some(LeaseStore.Lease(s.me, e)), replies := s.replies + [op])
            else Moved(s, op, if kind.Renew? then Forgetting else Done(None, Beaten))
  {
  }

  /** The reply books the epoch as held, whatever was held before; a renewal is done with it and moves the socket on. */
  lemma BooksSo(s: State, op: OpId)
    requires op in s.ops && s.ops[op].pc.Landed?
    ensures var s', e := Step(s, Book(op)), s.ops[op].pc.epoch;
            && s'.ledger.held == Some(e) && s'.ledger.booked == s.ledger.booked + {e}
            && (s.ledger.held.Some? && s.ledger.held.value != e ==>
                  s'.ledger.replaced == s.ledger.replaced[s.ledger.held.value := e])
            && s'.ledger.released == s.ledger.released && s'.ledger.lost == s.ledger.lost
            && s'.ledger.connects == s.ledger.connects
            && s'.ops == s.ops[op := Op(s.ops[op].kind,
                                        if s.ops[op].kind.Renew? then Done(Some(e), Renewed) else Waiting(e))]
            && s'.connection == (if s.ops[op].kind.Renew? && s.connection.Some? && s.connection.value < e then Some(e)
                                 else s.connection)
            && s'.cell == s.cell && s'.counter == s.counter && s'.inFlight == s.inFlight
  {
  }

  /** Off its wait an explicit connect goes on; a claim does exactly undrained and while its epoch is the one held. */
  lemma ProceedsIff(s: State, op: OpId)
    requires op in s.ops && s.ops[op].pc.Waiting?
    ensures var e := s.ops[op].pc.epoch;
            && (s.ops[op].kind.Connect? ==> Step(s, Proceed(op)) == Moved(s, op, Connecting(e)))
            && (s.ops[op].kind.Claim? && !s.draining ==>
                  Step(s, Proceed(op)) ==
                  Moved(s, op, if s.ledger.held == Some(e) then Connecting(e) else Done(Some(e), Superseded)))
            && (s.ops[op].kind.Restart? ==> Step(s, Inspect(op, true)) == Moved(s, op, Connecting(e)))
            && (s.ops[op].kind.Logout? ==>
                  Step(s, LogoutEnds(op)) == Moved(s, op, Clearing(Some(e))).(connection := None))
  {
  }

  /**
   Past the drain a restart that is no longer the held one's is called off and any other replaces the socket; a
   connect reuses a live one it may reuse, moving its epoch on, and replaces it otherwise. A probe that finds it dead
   drops it and decides again.
   */
  lemma ConnectsSo(s: State, op: OpId, reuse: bool)
    requires op in s.ops
    ensures s.ops[op].pc.Connecting? ==>
              var e := s.ops[op].pc.epoch;
              Step(s, Drain(op, reuse)) ==
              if s.ops[op].kind.Restart? && s.ledger.held != Some(e) then Moved(s, op, Done(Some(e), Superseded))
              else if s.ops[op].kind.Restart? || !reuse || s.connection.None?
              then Moved(s, op, Spawning(e)).(connection := Some(e))
              else Moved(s, op, Probing(e))
                     .(connection := Some(if s.connection.value < e then e else s.connection.value))
    ensures s.ops[op].pc.Probing? ==>
              Step(s, ProbeDead(op)) == Moved(s, op, Connecting(s.ops[op].pc.epoch)).(connection := None)
  {
  }

  /** A connect that succeeds is done; one that fails gives back its own lease, and its own spawn's socket is gone. */
  lemma SettlesSo(s: State, op: OpId, evicts: bool)
    requires op in s.ops && (s.ops[op].pc.Spawning? || s.ops[op].pc.Probing?)
    ensures var e := s.ops[op].pc.epoch;
            && Step(s, Settle(op, true, evicts)) ==
               Moved(s, op, Done(Some(e), Connected)).(ledger := s.ledger.(connects := s.ledger.connects + {e}))
            && Step(s, Settle(op, false, evicts)) ==
               Moved(s, op, Done(Some(e), GivenBack))
                 .(connection := if s.ops[op].pc.Spawning? && evicts then None else s.connection,
                   ledger := s.ledger.(held := if s.ledger.held == Some(e) then None else s.ledger.held,
                                       released := s.ledger.released + {e}),
                   inFlight := s.inFlight + {e})
  {
  }

  /** A release sent lands once, and empties the key exactly while it holds the very lease released. */
  lemma ReleaseLandsIff(s: State, e: nat)
    ensures Step(s, ReleaseLands(e)) ==
            if e !in s.inFlight then s
            else s.(cell := if s.cell == Some(LeaseStore.Lease(s.me, e)) then None else s.cell,
                    inFlight := s.inFlight - {e})
  {
  }

  /** What comes from outside: others store their leases, keys lapse, sockets go, the instance drains. */
  lemma OutsideSo(s: State, e: nat, owner: Instance)
    ensures owner != s.me ==>
              Step(s, OtherStores(owner, e)) == s.(cell := Some(LeaseStore.Lease(owner, e)), counter := s.counter + 1)
    ensures Step(s, Expire) == s.(cell := None) && Step(s, ConnectionGone) == s.(connection := None)
    ensures Step(s, StartDraining) == s.(draining := true)
  {
  }

  /** A rebuild that failed for good gives back the epoch its own connection carried, and no other. */
  lemma GivesUpSo(s: State)
    requires s.connection.Some?
    ensures var own := s.connection.value;
            Step(s, GiveUp) ==
            s.(connection := None, inFlight := s.inFlight + {own},
               ledger := s.ledger.(held := if s.ledger.held == Some(own) then None else s.ledger.held,
                                   released := s.ledger.released + {own}))
  {
  }

  // ---- giving back whatever is held ----

  // A draining claim, or a logout or handoff whose socket is gone: releaseHeldLease is next.
  predicate IsGivingBack(s: State, ev: Event) {
    || (ev.GiveBack? && ev.op in s.ops && s.ops[ev.op].pc.Clearing?)
    || (ev.Proceed? && At(s, ev.op, Claim) && s.ops[ev.op].pc.Waiting? && s.draining)
  }

  function UnderOf(pc: Pc): Option<nat> {
    if IsUsing(pc) then Some(pc.epoch) else if IsReleasing(pc) then pc.under else None
  }

  // Someone else holds the lease, or has it stored and is about to.
  ghost predicate IsWanted(s: State, op: OpId, e: nat) {
    s.ledger.held == Some(e) || exists o :: o in s.ops && o != op && s.ops[o].pc == Landed(e)
  }

  lemma ReleasesSo(s: State, ev: Event)
    requires IsGivingBack(s, ev)
    ensures Step(s, ev) == ReleaseStep(s, ev.op, UnderOf(s.ops[ev.op].pc))
  {
  }

  /**
   The release that ends a draining claim, a logout or a handoff is of the epoch held at that moment. If that is
   another operation's, the own one was gone before; if nothing is held, the own one is gone too, and the key is
   read. Left alone through that read, the own lease has been released in the end exactly when it had been, was
   the one held, or nothing was held and the key still had it.
   */
  lemma GivesBackTheHeld(s: State, ev: Event)
    requires Accounts(s) && IsGivingBack(s, ev)
    ensures var s', held, own := Step(s, ev), s.ledger.held, UnderOf(s.ops[ev.op].pc);
            && (held.Some? ==> s'.ledger.held == None && s'.inFlight == s.inFlight + {held.value}
                               && s'.ledger.released == s.ledger.released + {held.value})
            && (held.None? ==> s'.ledger == s.ledger && s'.inFlight == s.inFlight)
            && (own.Some? && held != own ==> Gone(s.ledger, own.value))
    ensures var s', own := Step(Step(Step(s, ev), Reread(ev.op)), SendReread(ev.op)), UnderOf(s.ops[ev.op].pc);
            own.Some? ==>
              (own.value in s'.ledger.released <==>
               own.value in s.ledger.released || s.ledger.held == own
               || (s.ledger.held.None? && s.cell == Some(LeaseStore.Lease(s.me, own.value))))
  {
    assert OpOk(s.ledger, s.ops[ev.op]);
    ReleasesSo(s, ev);
    RereadsAlone(ReleaseStep(s, ev.op, UnderOf(s.ops[ev.op].pc)), ev.op);
  }

  lemma RereadsAlone(s: State, op: OpId)
    requires op in s.ops && (s.ops[op].pc.Done? || s.ops[op].pc.Rereading?)
    ensures var s' := Step(Step(s, Reread(op)), SendReread(op));
            s'.ledger == if s.ops[op].pc.Rereading? && IsMine(s)
                         then s.ledger.(released := s.ledger.released + {s.cell.value.epoch}) else s.ledger
  {
    var a := Step(s, Reread(op));
    if s.ops[op].pc.Rereading? {
      assert a.ops[op].pc == Rereleasing(s.ops[op].pc.under, if IsMine(s) then Some(s.cell.value.epoch) else None);
    }
  }

  /** An undisturbed handoff closes the socket, and then releases exactly what is held. */
  lemma HandsOverAlone(s: State, op: OpId)
    requires op !in s.ops && s.ledger.held.Some?
    ensures var s', e := Step(Step(Step(s, Begin(op, Handoff)), Discard(op)), GiveBack(op)), s.ledger.held.value;
            && s'.connection == None && s'.ledger.held == None && s'.cell == s.cell
            && s'.inFlight == s.inFlight + {e} && s'.ledger.released == s.ledger.released + {e}
            && s'.ops == s.ops[op := Op(Handoff, Done(None, HandedOver))]
  {
    var a := Step(s, Begin(op, Handoff));
    assert a.ops == s.ops[op := Op(Handoff, Dropping)];
    var b := Step(a, Discard(op));
    assert b.ops == s.ops[op := Op(Handoff, Clearing(None))] && b.ledger == s.ledger;
    ReleasesSo(b, GiveBack(op));
  }

  /**
   What such a read finds under our name is a lease another operation wants, or one whose release is on its way
   or which a renewal deleted; and the former exactly when it is held by then or a reply is outstanding.
   */
  lemma RereadFinds(s: State, op: OpId)
    requires NoLeak(s) && op in s.ops && s.ops[op].pc.Rereading? && IsMine(s)
    ensures var f := s.cell.value.epoch;
            && op in Step(s, Reread(op)).ops
            && Step(s, Reread(op)).ops[op].pc == Rereleasing(s.ops[op].pc.under, Some(f))
            && (IsWanted(s, op, f) <==> s.ledger.held == Some(f) || s.replies != [])
            && (!IsWanted(s, op, f) ==> f in s.inFlight || f in s.ledger.lost)
  {
    if s.replies != [] {
      var last := s.replies[|s.replies| - 1];
      assert last in s.replies && last != op;
    }
  }

  lemma FailureAbandonsItsOwn(s: State, ev: Event, x: nat)
    requires (ev.Inspect? || ev.Settle?) && ev.op in s.ops && x !in s.inFlight && UnderOf(s.ops[ev.op].pc) != Some(x)
    ensures x !in OpStep(s, ev.op, ev).inFlight
  {
  }

  lemma OthersAbandonNothing(s: State, ev: Event)
    requires IsOpEvent(ev) && ev.op in s.ops && !IsGivingBack(s, ev)
    requires !ev.SendReread? && !ev.Inspect? && !ev.Settle?
    ensures OpStep(s, ev.op, ev).inFlight == s.inFlight
  {
  }

  /**
   No operation's step sends a release of a lease that another one wants, but for these: a draining claim, a
   logout or a handoff giving back what is held, and one of them releasing what its read of the key had found.
   */
  lemma GivesAwayIff(s: State, ev: Event, x: nat)
    requires Accounts(s) && IsOpEvent(ev) && ev.op in s.ops
    requires IsWanted(s, ev.op, x) && x !in s.inFlight && UnderOf(s.ops[ev.op].pc) != Some(x)
    ensures x in Step(s, ev).inFlight <==>
            || (IsGivingBack(s, ev) && s.ledger.held == Some(x))
            || (ev.SendReread? && s.ops[ev.op].pc.Rereleasing? && s.ops[ev.op].pc.found == Some(x))
  {
    OpEventIsOpStep(s, ev);
    if IsGivingBack(s, ev) {
      ReleasesSo(s, ev);
    } else if ev.Inspect? || ev.Settle? {
      FailureAbandonsItsOwn(s, ev, x);
    } else if !ev.SendReread? {
      OthersAbandonNothing(s, ev);
    }
  }

  // From the start: a claim waits, an explicit connect takes over and serves, the drain releases its lease.
  lemma DrainGivesAwayASuccessor(me: Instance)
    ensures var s := Serving(Acquired(Boot(me, false), 0, Claim), 1, Connect);
            && s.ledger.held == Some(2) && s.cell == Some(LeaseStore.Lease(me, 2)) && s.connection == Some(2)
            && StandsUnleased(Step(Step(Step(s, StartDraining), Proceed(0)), ReleaseLands(2)), 2)
    ensures var s0 := Boot(me, false);
            Acquired(s0, 0, Claim) == Step(Step(Step(Step(s0, Begin(0, Claim)), Incr(0)), Store(0)), Book(0))
  {
    AcquiresAlone(Boot(me, false), 0, Claim);
    var s1 := Step(Serving(Acquired(Boot(me, false), 0, Claim), 1, Connect), StartDraining);
    assert s1.ops[0] == Op(Claim, Waiting(1));
    ReleaseStrips(s1, Proceed(0), 2);
  }

  // The socket goes on with no lease in memory and none in Redis.
  predicate StandsUnleased(s: State, epoch: nat) {
    s.ledger.held == None && s.cell == None && s.connection == Some(epoch)
  }

  lemma ReleaseStrips(s: State, ev: Event, e: nat)
    requires IsGivingBack(s, ev) && s.ledger.held == Some(e) && s.connection == Some(e)
    requires s.cell == Some(LeaseStore.Lease(s.me, e))
    ensures StandsUnleased(Step(Step(s, ev), ReleaseLands(e)), e)
  {
    ReleasesSo(s, ev);
  }

  /**
   A logout does the same: its socket is gone, strikes and backoffs are being cleared, and a connect that comes up
   in between loses its lease to the release at the end.
   */
  lemma LogoutGivesAwayASuccessor(me: Instance)
    ensures var s0 := Step(Acquired(Boot(me, false), 0, Logout), LogoutEnds(0));
            StandsUnleased(Step(Step(Serving(s0, 1, Connect), GiveBack(0)), ReleaseLands(2)), 2)
  {
    var s0 := Step(Acquired(Boot(me, false), 0, Logout), LogoutEnds(0));
    assert s0.ops == map[0 := Op(Logout, Clearing(Some(1)))];
    ReleaseStrips(Serving(s0, 1, Connect), GiveBack(0), 2);
  }

  // A claim's lease is taken over and a renewal forgets it; then a connect stores its own, the reply outstanding.
  function Forgot(s: State, op: OpId): State {
    Step(Step(Step(s, Begin(op, Renew)), Ask(op, true)), Forget(op))
  }

  function TakenAndTakenBack(me: Instance, other: Instance): State {
    var s := Forgot(Step(Acquired(Boot(me, false), 0, Claim), OtherStores(other, 2)), 2);
    Step(Step(Step(s, Begin(1, Connect)), Incr(1)), Store(1))
  }

  lemma ForgetsSo(s: State, op: OpId)
    requires op !in s.ops && s.cell.Some? && s.cell.value.owner != s.me
    ensures Forgot(s, op) == s.(ledger := Forgotten(s.ledger), ops := s.ops[op := Op(Renew, Discarding)])
  {
    var a := Step(s, Begin(op, Renew));
    assert a.ops == s.ops[op := Op(Renew, Asking)];
    var b := Step(a, Ask(op, true));
    assert b.ops == s.ops[op := Op(Renew, Forgetting)] && b.ledger == s.ledger;
    assert Step(b, Forget(op)).ops == s.ops[op := Op(Renew, Discarding)];
  }

  lemma StoresSo(s: State, op: OpId)
    requires op !in s.ops && !s.worker
    ensures Step(Step(Step(s, Begin(op, Connect)), Incr(op)), Store(op)) ==
            s.(counter := s.counter + 1, cell := Some(LeaseStore.Lease(s.me, s.counter + 1)),
               ops := s.ops[op := Op(Connect, Landed(s.counter + 1))], replies := s.replies + [op])
  {
    var a := Step(s, Begin(op, Connect));
    assert a.ops == s.ops[op := Op(Connect, Drawing)];
    var b := Step(a, Incr(op));
    assert b.ops == s.ops[op := Op(Connect, Drawn(s.counter + 1))];
    assert Step(b, Store(op)).ops == s.ops[op := Op(Connect, Landed(s.counter + 1))];
  }

  // A drain with nothing held under way, while a stored lease waits for its reply.
  predicate AwaitsReply(s: State, claim: OpId, op: OpId, e: nat) {
    && claim != op && claim in s.ops && op in s.ops && s.ops[claim] == Op(Claim, Waiting(1))
    && s.ops[op] == Op(Connect, Landed(e)) && s.replies == [op] && s.ledger.held == None
    && s.cell == Some(LeaseStore.Lease(s.me, e)) && s.inFlight == {}
  }

  lemma TakesBackSo(me: Instance, other: Instance)
    requires me != other
    ensures AwaitsReply(TakenAndTakenBack(me, other), 0, 1, 3)
  {
    var s := Step(Acquired(Boot(me, false), 0, Claim), OtherStores(other, 2));
    ForgetsSo(s, 2);
    StoresSo(Forgot(s, 2), 1);
  }

  // The claim drains with nothing held and reads the key; the connect's reply comes before the release goes out.
  function RereadAcross(s: State, claim: OpId, op: OpId): State {
    Step(Step(Step(Step(Step(s, StartDraining), Proceed(claim)), Reread(claim)), Book(op)), SendReread(claim))
  }

  lemma RereadsAcrossSo(s: State, claim: OpId, op: OpId, e: nat)
    requires AwaitsReply(s, claim, op, e)
    ensures var s' := RereadAcross(s, claim, op);
            && s'.inFlight == {e} && s'.cell == s.cell && s'.me == s.me && s'.ledger.held == Some(e)
            && s'.ops == s.ops[op := Op(Connect, Waiting(e))][claim := Op(Claim, Done(Some(1), Drained))]
  {
    var a := Step(Step(s, StartDraining), Proceed(claim));
    assert a.ops == s.ops[claim := Op(Claim, Rereading(Some(1)))] && a.ledger == s.ledger;
    var b := Step(a, Reread(claim));
    assert b.ops == s.ops[claim := Op(Claim, Rereleasing(Some(1), Some(e)))];
    var c := Step(b, Book(op));
    assert c.ops == s.ops[claim := Op(Claim, Rereleasing(Some(1), Some(e)))][op := Op(Connect, Waiting(e))];
    assert c.ledger.held == Some(e) && c.inFlight == {} && c.cell == s.cell;
  }

  /** With nothing held it happens as well: the drain finds a stored lease that is not booked yet, and releases it. */
  lemma RereadGivesAwayASuccessor(me: Instance, other: Instance)
    requires me != other
    ensures var s := Step(RereadAcross(TakenAndTakenBack(me, other), 0, 1), ReleaseLands(3));
            && s.cell == None && s.ledger.held == Some(3)
            && 1 in s.ops && s.ops[1] == Op(Connect, Waiting(3)) && 0 in s.ops && s.ops[0].pc == Done(Some(1), Drained)
  {
    TakesBackSo(me, other);
    RereadsAcrossSo(TakenAndTakenBack(me, other), 0, 1, 3);
  }

  // ---- a socket and its lease ----

  predicate SocketWithoutLease(s: State) {
    s.connection.Some? && s.ledger.held.None?
  }

  // What takes the held lease from under a live socket, or puts up a socket with nothing held.
  predicate Unleases(s: State, ev: Event) {
    match ev
    case Settle(op, ok, evicts) =>
      && op in s.ops && !ok && s.connection.Some?
      && ((s.ops[op].pc.Spawning? && !evicts) || s.ops[op].pc.Probing?) && s.ledger.held == Some(s.ops[op].pc.epoch)
    case Proceed(_) => IsGivingBack(s, ev) && s.connection.Some?
    case GiveBack(_) => IsGivingBack(s, ev) && s.connection.Some?
    case Forget(op) => op in s.ops && s.ops[op].pc.Forgetting? && s.connection.Some?
    case Drain(op, _) =>
      op in s.ops && s.ops[op].pc.Connecting? && !s.ops[op].kind.Restart? && s.ledger.held.None?
    case _ => false
  }

  lemma UseUnleases(s: State, ev: Event)
    requires !SocketWithoutLease(s) && IsOpEvent(ev) && ev.op in s.ops
    requires ev.Settle? || ev.Proceed? || ev.GiveBack? || ev.Forget? || ev.Drain?
    ensures SocketWithoutLease(OpStep(s, ev.op, ev)) <==> Unleases(s, ev)
  {
  }

  lemma NothingElseUnleases(s: State, ev: Event)
    requires !SocketWithoutLease(s) && IsOpEvent(ev) && ev.op in s.ops
    requires !ev.Settle? && !ev.Proceed? && !ev.GiveBack? && !ev.Forget? && !ev.Drain?
    ensures !SocketWithoutLease(OpStep(s, ev.op, ev))
  {
  }

  /**
   A live socket loses its lease, or comes up without one, in exactly these ways: a connect under the held epoch
   fails and leaves the socket; a drain, logout or handoff gives back what is held under a socket that is up; a
   renewal deletes the epoch, its discard still to come; or a connect whose epoch is gone gets its turn with nothing
   held. A restart asks before it builds.
   */
  lemma SocketLosesItsLeaseIff(s: State, ev: Event)
    requires !SocketWithoutLease(s)
    ensures SocketWithoutLease(Step(s, ev)) <==> Unleases(s, ev)
  {
    if IsOpEvent(ev) {
      OpEventIsOpStep(s, ev);
      if ev.op in s.ops {
        if ev.Settle? || ev.Proceed? || ev.GiveBack? || ev.Forget? || ev.Drain? {
          UseUnleases(s, ev);
        } else {
          NothingElseUnleases(s, ev);
        }
      }
    }
  }

  ghost predicate KeepsLeases(s: State, es: seq<Event>)
    decreases |es|
  {
    es == [] || (!Unleases(s, es[0]) && KeepsLeases(Step(s, es[0]), es[1..]))
  }

  /** In a run with none of these, a live socket has a held lease throughout. */
  lemma {:induction false} SocketsKeepTheirLeases(s: State, es: seq<Event>)
    requires !SocketWithoutLease(s) && KeepsLeases(s, es)
    ensures !SocketWithoutLease(Run(s, es))
    decreases |es|
  {
    if es != [] {
      SocketLosesItsLeaseIff(s, es[0]);
      SocketsKeepTheirLeases(Step(s, es[0]), es[1..]);
    }
  }

  /**
   In particular a connect that fails ends with a live socket and nothing held exactly when it was probing, or its
   own spawn was no longer the registered one, with a socket up and no other operation's epoch held.
   */
  lemma FailedConnectLeavesASocketIff(s: State, op: OpId, evicts: bool)
    requires op in s.ops && (s.ops[op].pc.Spawning? || s.ops[op].pc.Probing?)
    ensures SocketWithoutLease(Step(s, Settle(op, false, evicts))) <==>
            && s.connection.Some? && (s.ops[op].pc.Probing? || !evicts)
            && (s.ledger.held.None? || s.ledger.held == Some(s.ops[op].pc.epoch))
  {
    OpEventIsOpStep(s, Settle(op, false, evicts));
  }

  /** A renewal of a key that another instance holds drops the socket and what is held exactly when Redis answers. */
  lemma RenewalYieldsIff(s: State, op: OpId, reachable: bool)
    requires op in s.ops && s.ops[op] == Op(Renew, Asking) && s.connection.Some?
    requires s.cell.Some? && s.cell.value.owner != s.me
    ensures var s' := Step(Step(Step(s, Ask(op, reachable)), Forget(op)), Discard(op));
            && (s'.connection.None? <==> reachable) && (reachable ==> s'.ledger.held == None)
            && (!reachable ==> s'.connection == s.connection && s'.ledger == s.ledger)
  {
    var a := Step(s, Ask(op, reachable));
    assert a.ops[op].pc == if reachable then Forgetting else Done(None, Unreachable);
    var b := Step(a, Forget(op));
    assert b.ops[op].pc == if reachable then Discarding else Done(None, Unreachable);
  }

  // ---- what a socket's epoch does ----

  /** While the same socket lives the epoch it carries never goes back; only a new socket starts from its own. */
  lemma SocketEpochOnlyGrows(s: State, ev: Event)
    requires s.connection.Some? && Step(s, ev).connection.Some?
    requires ev.Drain? && ev.op in s.ops && s.ops[ev.op].pc.Connecting? ==> ev.reuse && !s.ops[ev.op].kind.Restart?
    ensures s.connection.value <= Step(s, ev).connection.value
  {
    if IsOpEvent(ev) {
      OpEventIsOpStep(s, ev);
    }
  }

  /**
   A restart with nothing to restart keeps its lease only for a live socket. That socket then carries this epoch
   exactly when it carried none newer; a newer one it keeps.
   */
  lemma UnwindHandsOver(s: State, op: OpId, e: nat)
    requires op in s.ops && s.ops[op] == Op(Restart, Waiting(e))
    ensures var s' := Step(s, Inspect(op, false));
            && op in s'.ops && s'.ops[op].pc.Done?
            && (s'.ops[op].pc.outcome.KeptLive? <==> s.ledger.held == Some(e) && s.connection.Some?)
            && (s'.ops[op].pc.outcome.KeptLive? ==> s'.connection.Some? && e <= s'.connection.value
                                                    && (s'.connection == Some(e) <==> s.connection.value <= e))
  {
    OpEventIsOpStep(s, Inspect(op, false));
  }

  /** The two can differ: with SETs out of draw order the held epoch falls below the one the live socket carries. */
  lemma HeldBelowTheSocket(me: Instance)
    ensures var s0 := Step(Step(Boot(me, false), Begin(0, Restart)), Incr(0));
            var s1 := Serving(s0, 1, Connect);
            var s2 := Step(Step(Step(s1, Store(0)), Book(0)), Inspect(0, false));
            && s2.ledger.held == Some(1) && s2.cell == Some(LeaseStore.Lease(me, 1)) && s2.connection == Some(2)
            && 0 in s2.ops && s2.ops[0].pc == Done(Some(1), KeptLive)
  {
    var s0 := Step(Step(Boot(me, false), Begin(0, Restart)), Incr(0));
    assert s0.ops == map[0 := Op(Restart, Drawn(1))] && s0.counter == 1;
    var s1 := Serving(s0, 1, Connect);
    assert s1.ops[0] == Op(Restart, Drawn(1));
    var a := Step(s1, Store(0));
    assert a.ops[0] == Op(Restart, Landed(1)) && a.replies == [0];
    var b := Step(a, Book(0));
    assert b.ops[0] == Op(Restart, Waiting(1)) && b.connection == Some(2);
  }

  // ---- renewals ----

  /** A renewal that finds the key under its own name is done there and then, with nothing touched at all. */
  lemma OwnRenewalTouchesNothing(s: State, op: OpId)
    requires op !in s.ops && IsMine(s)
    ensures var s' := Step(Step(s, Begin(op, Renew)), Ask(op, true));
            s' == s.(ops := s.ops[op := Op(Renew, Done(None, Renewed))])
  {
    var a := Step(s, Begin(op, Renew));
    assert a.ops == s.ops[op := Op(Renew, Asking)];
    assert Step(a, Ask(op, true)).ops == s.ops[op := Op(Renew, Done(None, Renewed))];
  }

  // A renewal to its end, whatever its SET NX meets.
  function RenewedOver(s: State, op: OpId, reachable: bool, met: Option<Lease>): State {
    var a := Step(Step(Step(s, Begin(op, Renew)), Ask(op, reachable)), Incr(op)).(cell := met);
    SetToDiscard(a, op)
  }

  lemma RenewalAsks(s: State, op: OpId, reachable: bool)
    requires op !in s.ops
    ensures var next := if !reachable then Done(None, Unreachable)
                        else if s.cell.None? then Drawn(s.counter + 1)
                        else if IsMine(s) then Done(None, Renewed) else Forgetting;
            Step(Step(Step(s, Begin(op, Renew)), Ask(op, reachable)), Incr(op)) ==
            s.(counter := s.counter + if next.Drawn? then 1 else 0, ops := s.ops[op := Op(Renew, next)])
  {
    var a := Step(s, Begin(op, Renew));
    assert a.ops == s.ops[op := Op(Renew, Asking)];
    var b := Step(a, Ask(op, reachable));
    assert b.ops[op].pc == if !reachable then Done(None, Unreachable) else if s.cell.None? then Drawing
                           else if IsMine(s) then Done(None, Renewed) else Forgetting;
  }

  lemma DoneStaysDone(s: State, op: OpId, ev: Event)
    requires op in s.ops && s.ops[op].pc.Done? && IsOpEvent(ev) && ev.op == op
    ensures Step(s, ev) == s
  {
  }

  function SetToDiscard(s: State, op: OpId): State {
    Step(Step(Step(Step(s, Store(op)), Book(op)), Forget(op)), Discard(op))
  }

  // From the SET on, of a renewal that drew an epoch: it takes an empty key back, and is beaten otherwise.
  lemma RetakesTheKey(s: State, op: OpId, e: nat)
    requires op in s.ops && s.ops[op] == Op(Renew, Drawn(e)) && s.cell.None?
    ensures var s' := SetToDiscard(s, op);
            && s'.cell == Some(LeaseStore.Lease(s.me, e)) && s'.ledger == Booked(s.ledger, e)
            && s'.connection == Forward(s.connection, e)
  {
    var a := Step(s, Store(op));
    assert a.ops[op].pc == Landed(e);
    var b := Step(a, Book(op));
    assert b.ops[op].pc == Done(Some(e), Renewed);
    DoneStaysDone(b, op, Forget(op));
    DoneStaysDone(b, op, Discard(op));
  }

  lemma ForgetsAtOnce(s: State, op: OpId)
    requires op in s.ops && s.ops[op].kind.Renew?
    requires s.ops[op].pc.Forgetting? || (s.ops[op].pc.Drawn? && s.cell.Some?)
    ensures var s' := SetToDiscard(s, op);
            s'.cell == s.cell && s'.ledger == Forgotten(s.ledger) && s'.connection == None
  {
    var a := Step(s, Store(op));
    assert s.ops[op := s.ops[op]] == s.ops;
    assert a == Goto(s, op, Forgetting);
    var b := Step(a, Book(op));
    assert b == a;
    assert Step(b, Forget(op)).ops[op].pc == Discarding;
  }

  /**
   What a renewal does in the end, for every reply. It deletes the held epoch and drops the socket exactly when its
   script found a foreign key, or found none and its SET then met one. It takes the key back, and memory and socket
   learn the new epoch, exactly when both found none. Otherwise nothing changes: it was renewed, or got no answer.
   */
  lemma RenewalEndsSo(s: State, op: OpId, reachable: bool, met: Option<Lease>)
    requires op !in s.ops
    ensures var s', next := RenewedOver(s, op, reachable, met), s.counter + 1;
            var gone := reachable && if s.cell.None? then met.Some? else s.cell.value.owner != s.me;
            var retaken := reachable && s.cell.None? && met.None?;
            && (gone ==> s'.ledger.held == None && s'.connection == None && s'.cell == met
                         && (s.ledger.held.Some? ==> s'.ledger.lost == s.ledger.lost + {s.ledger.held.value}))
            && (retaken ==> s'.cell == Some(LeaseStore.Lease(s.me, next)) && s'.ledger.held == Some(next)
                            && s'.connection == if s.connection.Some? && s.connection.value < next then Some(next)
                                                else s.connection)
            && (!gone && !retaken ==> s'.ledger == s.ledger && s'.connection == s.connection && s'.cell == met)
  {
    RenewalAsks(s, op, reachable);
    var a := Step(Step(Step(s, Begin(op, Renew)), Ask(op, reachable)), Incr(op)).(cell := met);
    if a.ops[op].pc.Drawn? && met.None? {
      RetakesTheKey(a, op, s.counter + 1);
    } else if a.ops[op].pc.Drawn? || a.ops[op].pc.Forgetting? {
      ForgetsAtOnce(a, op);
    } else {
      DoneStaysDone(a, op, Store(op));
      DoneStaysDone(a, op, Book(op));
      DoneStaysDone(a, op, Forget(op));
      DoneStaysDone(a, op, Discard(op));
    }
  }

  // ---- restarts ----

  // How a restart may stand when it has ended.
  predicate RestartEnded(s: State, e: nat, o: Outcome) {
    || (o.Connected? && e in s.ledger.connects)
    || (o.GivenBack? && e in s.ledger.released && s.ledger.held != Some(e))
    || (o.Superseded? && Gone(s.ledger, e) && s.ledger.held != Some(e))
    || (o.KeptLive? && s.ledger.held == Some(e) && s.connection.Some? && e <= s.connection.value)
  }

  lemma InspectEndsRestart(s: State, op: OpId, ev: Event)
    requires Accounts(s) && op in s.ops && s.ops[op].kind.Restart? && !s.ops[op].pc.Done? && ev.Inspect?
    ensures var s' := OpStep(s, op, ev);
            op in s'.ops && (s'.ops[op].pc.Done? ==>
              s'.ops[op].pc.under.Some? && RestartEnded(s', s'.ops[op].pc.under.value, s'.ops[op].pc.outcome))
  {
    assert OpOk(s.ledger, s.ops[op]);
  }

  lemma DrainEndsRestart(s: State, op: OpId, ev: Event)
    requires Accounts(s) && op in s.ops && s.ops[op].kind.Restart? && !s.ops[op].pc.Done? && ev.Drain?
    ensures var s' := OpStep(s, op, ev);
            op in s'.ops && (s'.ops[op].pc.Done? ==>
              s'.ops[op].pc.under.Some? && RestartEnded(s', s'.ops[op].pc.under.value, s'.ops[op].pc.outcome))
  {
    assert OpOk(s.ledger, s.ops[op]);
  }

  lemma SettleEndsRestart(s: State, op: OpId, ev: Event)
    requires Accounts(s) && op in s.ops && s.ops[op].kind.Restart? && !s.ops[op].pc.Done? && ev.Settle?
    ensures var s' := OpStep(s, op, ev);
            op in s'.ops && (s'.ops[op].pc.Done? ==>
              s'.ops[op].pc.under.Some? && RestartEnded(s', s'.ops[op].pc.under.value, s'.ops[op].pc.outcome))
  {
  }

  lemma NothingElseEndsRestart(s: State, op: OpId, ev: Event)
    requires Accounts(s) && op in s.ops && s.ops[op].kind.Restart? && !s.ops[op].pc.Done?
    requires !ev.Inspect? && !ev.Drain? && !ev.Settle?
    ensures var s' := OpStep(s, op, ev); op in s'.ops && (s'.ops[op].pc.Done? ==> s'.ops[op].pc == Done(None, Refused))
  {
    assert OpOk(s.ledger, s.ops[op]);
  }

  /**
   However a restart that had its lease ends, at that moment it does not keep it as the held one with no socket
   behind it: its connect succeeded, its lease was given back, had gone before, or backs a live socket that
   carries this epoch or a newer one.
   */
  lemma RestartKeepsNoIdleLease(s: State, ev: Event, op: OpId)
    requires Accounts(s) && op in s.ops && s.ops[op].kind.Restart? && !s.ops[op].pc.Done?
    ensures op in Step(s, ev).ops
    ensures var s' := Step(s, ev);
            s'.ops[op].pc.Done? ==>
              s'.ops[op].pc == Done(None, Refused)
              || (s'.ops[op].pc.under.Some? && RestartEnded(s', s'.ops[op].pc.under.value, s'.ops[op].pc.outcome))
  {
    if IsOpEvent(ev) {
      OpEventIsOpStep(s, ev);
      if ev.op in s.ops {
        OnlyItMoves(s, ev, op);
      }
      if ev.op == op {
        if ev.Inspect? {
          InspectEndsRestart(s, op, ev);
        } else if ev.Drain? {
          DrainEndsRestart(s, op, ev);
        } else if ev.Settle? {
          SettleEndsRestart(s, op, ev);
        } else {
          NothingElseEndsRestart(s, op, ev);
        }
      }
    }
  }

  lemma OnlyItMoves(s: State, ev: Event, other: OpId)
    requires Accounts(s) && IsOpEvent(ev) && ev.op in s.ops && other in s.ops
    ensures other in OpStep(s, ev.op, ev).ops && (other != ev.op ==> OpStep(s, ev.op, ev).ops[other] == s.ops[other])
  {
    OpEventMoves(s, ev);
  }

  // ---- runs from the start ----

  // A renewal that finds no key draws an epoch to take it again.
  lemma RenewalDraws(s: State, op: OpId)
    requires op !in s.ops && s.cell == None
    ensures Step(Step(Step(s, Begin(op, Renew)), Ask(op, true)), Incr(op))
         == s.(counter := s.counter + 1, ops := s.ops[op := Op(Renew, Drawn(s.counter + 1))])
  {
    var a := Step(s, Begin(op, Renew));
    assert a.ops[op] == Op(Renew, Asking);
    var b := Step(a, Ask(op, true));
    assert b.ops[op] == Op(Renew, Drawing);
    assert Step(b, Incr(op)).ops == s.ops[op := Op(Renew, Drawn(s.counter + 1))];
  }

  // Beaten to the key, it deletes whatever is held and drops the socket.
  lemma BeatenRenewal(s: State, op: OpId, e: nat)
    requires op in s.ops && s.ops[op] == Op(Renew, Drawn(e)) && s.cell.Some?
    ensures Step(Step(Step(s, Store(op)), Forget(op)), Discard(op))
         == s.(ledger := Forgotten(s.ledger), connection := None, ops := s.ops[op := Op(Renew, Done(None, Discarded))])
  {
    var a := Step(s, Store(op));
    assert a.ops[op] == Op(Renew, Forgetting) && a.cell == s.cell;
    var b := Step(a, Forget(op));
    assert b.ops[op] == Op(Renew, Discarding);
    assert Step(b, Discard(op)).ops == s.ops[op := Op(Renew, Done(None, Discarded))];
  }

  /**
   A renewal that finds the key gone can lose it to another operation of its own instance; it then deletes that
   operation's epoch from memory and drops the socket, and the lease stays in Redis with nobody behind it.
   */
  lemma RenewalForgetsALiveLease(me: Instance)
    ensures var s0 := Step(Serving(Boot(me, false), 0, Connect), Expire);
            var s1 := Step(Step(Step(s0, Begin(1, Renew)), Ask(1, true)), Incr(1));
            var s2 := Acquired(s1, 2, Connect);
            var s3 := Step(Step(Step(s2, Store(1)), Forget(1)), Discard(1));
            && s2.ledger.held == Some(3) && s2.cell == Some(LeaseStore.Lease(me, 3))
            && Leaked(s3) && s3.cell == s2.cell && s3.ledger.held == None
            && s3.connection == None && 3 in s3.ledger.lost
  {
    var s0 := Step(Serving(Boot(me, false), 0, Connect), Expire);
    RenewalDraws(s0, 1);
    var s1 := s0.(counter := 2, ops := s0.ops[1 := Op(Renew, Drawn(2))]);
    BeatenRenewal(Acquired(s1, 2, Connect), 1, 2);
  }

  /** A connect that fails while probing a live socket gives its lease back and leaves that socket with none. */
  lemma FailedReuseLeavesASocket(me: Instance)
    ensures var s0 := Serving(Boot(me, false), 0, Connect);
            var s1 := Step(Step(Acquired(s0, 1, Connect), Proceed(1)), Drain(1, true));
            var s2 := Step(Step(s1, Settle(1, false, false)), ReleaseLands(2));
            s2.cell == None && s2.ledger.held == None && s2.connection == Some(2)
  {
    var s0 := Serving(Boot(me, false), 0, Connect);
    var a := Step(Acquired(s0, 1, Connect), Proceed(1));
    assert a.ops[1] == Op(Connect, Connecting(2));
    var s1 := Step(a, Drain(1, true));
    assert s1.ops[1] == Op(Connect, Probing(2)) && s1.connection == Some(2);
    var b := Step(s1, Settle(1, false, false));
    assert b.inFlight == {2} && b.cell == Some(LeaseStore.Lease(me, 2));
  }

  /** While Redis cannot be reached a socket is kept whose lease another instance has by now: two for one phone. */
  lemma UnreachableRedisKeepsTheSocket(me: Instance, other: Instance)
    requires me != other
    ensures var s0 := Step(Step(Serving(Boot(me, false), 0, Connect), Expire), OtherStores(other, 2));
            var s1 := Step(Step(s0, Begin(1, Renew)), Ask(1, false));
            s1.cell == Some(LeaseStore.Lease(other, 2)) && s1.connection == Some(1) && s1.ledger.held == Some(1)
  {
    var s0 := Step(Step(Serving(Boot(me, false), 0, Connect), Expire), OtherStores(other, 2));
    var a := Step(s0, Begin(1, Renew));
    assert a.ops[1] == Op(Renew, Asking);
  }

  // Two explicit operations whose SETs have both gone through, in draw order.
  function TwoLanded(me: Instance): State {
    Boot(me, false).(counter := 2, cell := Some(LeaseStore.Lease(me, 2)), replies := [0, 1],
                     ops := map[0 := Op(Connect, Landed(1)), 1 := Op(Connect, Landed(2))])
  }

  lemma TwoLandedReachable(me: Instance)
    ensures var s := Step(Step(Step(Step(Boot(me, false), Begin(0, Connect)), Incr(0)), Begin(1, Connect)), Incr(1));
            Step(Step(s, Store(0)), Store(1)) == TwoLanded(me)
  {
    var s := Step(Step(Step(Step(Boot(me, false), Begin(0, Connect)), Incr(0)), Begin(1, Connect)), Incr(1));
    assert s.ops == map[0 := Op(Connect, Drawn(1)), 1 := Op(Connect, Drawn(2))];
    var a := Step(s, Store(0));
    assert a.ops == map[0 := Op(Connect, Landed(1)), 1 := Op(Connect, Drawn(2))] && a.replies == [0];
  }

  /** Without the order of replies a lease leaks with no renewal in sight. */
  lemma RepliesOutOfOrderLeak(me: Instance)
    ensures var s := Step(Step(TwoLanded(me), Book(1)), Book(0));
            Leaked(s) && s.cell == Some(LeaseStore.Lease(me, 2)) && s.ledger.held == Some(1)
  {
    var a := Step(TwoLanded(me), Book(1));
    assert a.ops[0] == Op(Connect, Landed(1)) && a.replies == [0];
    assert Without([0], 0) == [];
  }

  // ---- the coordinator itself ----

  /** The source's maps for one phone, with the keys and the operations; each method is one stretch of its code. */
  class Coordinator {
    const me: Instance
    const worker: bool
    var draining: bool
    var counter: nat
    var cell: Option<Lease>
    var connection: Option<nat>
    var ledger: Ledger
    var ops: map<OpId, Op>
    var replies: seq<OpId>
    var inFlight: set<nat>

    function Now(): State
      reads this
    {
      State(me, worker, draining, counter, cell, connection, ledger, ops, replies, inFlight)
    }

    constructor (me: Instance, worker: bool)
      ensures Now() == Boot(me, worker)
    {
      this.me, this.worker := me, worker;
      draining, counter, cell, connection := false, 0, None, None;
      ledger, ops, replies, inFlight := Ledger(None, {}, map[], {}, {}, {}), map[], [], {};
    }

    method MoveOp(op: OpId, pc: Pc)
      requires op in ops
      modifies this`ops
      ensures ops == old(ops)[op := old(ops)[op].(pc := pc)]
    {
      ops := ops[op := ops[op].(pc := pc)];
    }

    // leaseStore.releaseLease: sent here, run by Redis at some later step.
    method SendRelease(epoch: nat)
      modifies this`ledger, this`inFlight
      ensures ledger == old(ledger).(released := old(ledger).released + {epoch}) && inFlight == old(inFlight) + {epoch}
    {
      ledger := ledger.(released := ledger.released + {epoch});
      inFlight := inFlight + {epoch};
    }

    /** Gives back one lease and never another: the memory only if it still is this one. */
    method AbandonExplicitLease(epoch: nat)
      modifies this`ledger, this`inFlight
      ensures Now() == Abandon(old(Now()), epoch)
    {
      if ledger.held == Some(epoch) {
        ledger := ledger.(held := None);
      }
      SendRelease(epoch);
    }

    // releaseHeldLease up to its await; with nothing held it first reads the key.
    method ReleaseHeldLease(op: OpId, under: Option<nat>)
      requires op in ops
      modifies this`ledger, this`inFlight, this`ops
      ensures Now() == ReleaseStep(old(Now()), op, under)
    {
      var held := ledger.held;
      if held.None? {
        MoveOp(op, Rereading(under));
        return;
      }
      ledger := ledger.(held := None);
      SendRelease(held.value);
      MoveOp(op, Done(under, EndOf(ops[op].kind)));
    }

    // getLease
    method ReadTheKey(op: OpId)
      requires op in ops && ops[op].pc.Rereading?
      modifies this`ops
      ensures Now() == Step(old(Now()), Reread(op))
    {
      var found := None;
      if cell.Some? && cell.value.owner == me {
        found := Some(cell.value.epoch);
      }
      MoveOp(op, Rereleasing(ops[op].pc.under, found));
    }

    method ReleaseFound(op: OpId)
      requires op in ops && ops[op].pc.Rereleasing?
      modifies this`ledger, this`inFlight, this`ops
      ensures Now() == Step(old(Now()), SendReread(op))
    {
      var Rereleasing(under, found) := ops[op].pc;
      if found.Some? {
        SendRelease(found.value);
      }
      MoveOp(op, Done(under, EndOf(ops[op].kind)));
    }

    // handler.discardConnection, for a lost lease or a handoff.
    method DiscardConnection(op: OpId)
      requires op in ops && (ops[op].pc.Discarding? || ops[op].pc.Dropping?)
      modifies this`connection, this`ops
      ensures Now() == Step(old(Now()), Discard(op))
    {
      connection := None;
      MoveOp(op, if ops[op].pc.Discarding? then Done(None, Discarded) else Clearing(None));
    }

    // handler.logout has returned; the clearing of strikes and backoffs comes before the release.
    method EndLogout(op: OpId)
      requires op in ops && ops[op].kind.Logout? && ops[op].pc.Waiting?
      modifies this`connection, this`ops
      ensures Now() == Step(old(Now()), LogoutEnds(op))
    {
      connection := None;
      MoveOp(op, Clearing(Some(ops[op].pc.epoch)));
    }

    /** The worker's guard: another live owner is left alone, everything else is taken over. */
    method AcquireExplicitLease(op: OpId, alive: Instance -> bool) returns (refused: bool)
      requires op in ops && ops[op].pc.Guarding?
      modifies this`ops
      ensures Now() == Step(old(Now()), Look(op, alive))
      ensures refused <==> cell.Some? && cell.value.owner != me && alive(cell.value.owner)
    {
      refused := cell.Some? && cell.value.owner != me && alive(cell.value.owner);
      MoveOp(op, if refused then Done(None, Refused) else Drawing);
    }

    // The reply to a SET that went through: heldLeaseEpochs.set, and for a renewal the socket's epoch with it.
    method HoldLease(op: OpId)
      requires op in ops && ops[op].pc.Landed?
      modifies this
      ensures Now() == Step(old(Now()), Book(op))
    {
      var e := ops[op].pc.epoch;
      if ledger.held.Some? && ledger.held.value != e {
        ledger := ledger.(replaced := ledger.replaced[ledger.held.value := e]);
      }
      ledger := ledger.(held := Some(e), booked := ledger.booked + {e});
      replies := Without(replies, op);
      if ops[op].kind.Renew? {
        UpdateLeaseEpoch(e);
        MoveOp(op, Done(Some(e), Renewed));
      } else {
        MoveOp(op, Waiting(e));
      }
    }

    method UpdateLeaseEpoch(epoch: nat)
      modifies this`connection
      ensures Now() == old(Now()).(connection := Forward(old(connection), epoch))
    {
      if connection.Some? && epoch >= connection.value {
        connection := Some(epoch);
      }
    }

    // A claim after its delay, or after the scan that the drain cut short.
    method SettleClaim(op: OpId)
      requires op in ops && ops[op].kind.Claim? && ops[op].pc.Waiting?
      modifies this
      ensures Now() == Step(old(Now()), Proceed(op))
    {
      var e := ops[op].pc.epoch;
      if draining {
        ReleaseHeldLease(op, Some(e));
      } else if ledger.held != Some(e) {
        MoveOp(op, Done(Some(e), Superseded));
      } else {
        MoveOp(op, Connecting(e));
      }
    }

    method UnwindRestartLease(op: OpId)
      requires op in ops && ops[op].kind.Restart? && ops[op].pc.Waiting?
      modifies this
      ensures Now() == Step(old(Now()), Inspect(op, false))
    {
      var e := ops[op].pc.epoch;
      if ledger.held != Some(e) {
        MoveOp(op, Done(Some(e), Superseded));
      } else if connection.Some? {
        UpdateLeaseEpoch(e);
        MoveOp(op, Done(Some(e), KeptLive));
      } else {
        AbandonExplicitLease(e);
        MoveOp(op, Done(Some(e), GivenBack));
      }
    }

    // connect() past the drain; spawnOptions, the restart's resolver, is run here.
    method ConnectPastDrain(op: OpId, reuse: bool)
      requires op in ops && ops[op].pc.Connecting?
      modifies this
      ensures Now() == Step(old(Now()), Drain(op, reuse))
    {
      var e, kind := ops[op].pc.epoch, ops[op].kind;
      if kind.Restart? && ledger.held != Some(e) {
        MoveOp(op, Done(Some(e), Superseded));
      } else if reuse && connection.Some? && !kind.Restart? {
        UpdateLeaseEpoch(e);
        MoveOp(op, Probing(e));
      } else {
        connection := Some(e);
        MoveOp(op, Spawning(e));
      }
    }

    // runUnderExplicitLease and the claim's catch: a rejected connect gives its own lease back.
    method FinishConnect(op: OpId, ok: bool, evicts: bool)
      requires op in ops && (ops[op].pc.Spawning? || ops[op].pc.Probing?)
      modifies this
      ensures Now() == Step(old(Now()), Settle(op, ok, evicts))
    {
      var e := ops[op].pc.epoch;
      if ok {
        ledger := ledger.(connects := ledger.connects + {e});
        MoveOp(op, Done(Some(e), Connected));
      } else {
        if ops[op].pc.Spawning? && evicts {
          connection := None;
        }
        AbandonExplicitLease(e);
        MoveOp(op, Done(Some(e), GivenBack));
      }
    }

    // One phone's turn in the renew cycle, with the script's answer.
    method RenewOne(op: OpId, reachable: bool)
      requires op in ops && ops[op].pc.Asking?
      modifies this`ops
      ensures Now() == Step(old(Now()), Ask(op, reachable))
    {
      if !reachable {
        MoveOp(op, Done(None, Unreachable));
      } else if cell.None? {
        MoveOp(op, Drawing);
      } else if cell.value.owner != me {
        MoveOp(op, Forgetting);
      } else {
        MoveOp(op, Done(None, Renewed));
      }
    }

    // The lease is owned elsewhere, or was taken while the renewal tried to take it again.
    method ForgetLostLease(op: OpId)
      requires op in ops && ops[op].pc.Forgetting?
      modifies this
      ensures Now() == Step(old(Now()), Forget(op))
    {
      if ledger.held.Some? {
        ledger := ledger.(held := None, lost := ledger.lost + {ledger.held.value});
      }
      MoveOp(op, Discarding);
    }
  }
}
