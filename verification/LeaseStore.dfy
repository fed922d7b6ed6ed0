/**
 One phone's lease cell and epoch counter. INCR and SET are separate commands, so any number of acquires may
 be between the two; renew and release are single scripts; expiry may happen at any moment.
 */
module LeaseStore {
  import opened Wrappers

  type Instance = string
  type OpId = nat

  datatype Lease = Lease(owner: Instance, epoch: nat)

  // An acquire that has drawn its epoch and not yet sent its SET.
  datatype Acquire = Acquire(lease: Lease, force: bool)

  datatype State = State(
    counter: nat,
    cell: Option<Lease>,
    pending: map<OpId, Acquire>,
    stored: seq<Lease>            // every lease ever written to the cell, oldest first
  )

  datatype Event =
    | Incr(op: OpId, owner: Instance, force: bool)
    | Store(op: OpId)
    | Renew(owner: Instance)
    | Release(owner: Instance, epoch: nat)
    | Expire

  datatype RenewResult = Renewed | Lost | Missing

  // A key that is there already turns an NX store away.
  predicate Lands(s: State, op: OpId) {
    op in s.pending && (s.pending[op].force || s.cell.None?)
  }

  function StoreStep(s: State, op: OpId): State
    requires op in s.pending
  {
    var s1 := s.(pending := s.pending - {op});
    if Lands(s, op) then s1.(cell := Some(s.pending[op].lease), stored := s.stored + [s.pending[op].lease]) else s1
  }

  function RenewReply(cell: Option<Lease>, owner: Instance): RenewResult {
    if cell.None? then Missing else if cell.value.owner != owner then Lost else Renewed
  }

  function AfterRelease(cell: Option<Lease>, owner: Instance, epoch: nat): Option<Lease> {
    if cell.None? then None
    else if cell.value.owner != owner then cell
    else if cell.value.epoch != epoch then cell
    else None
  }

  function Step(s: State, e: Event): State {
    match e
    case Incr(op, owner, force) =>
      if op in s.pending then s
      else s.(counter := s.counter + 1, pending := s.pending[op := Acquire(Lease(owner, s.counter + 1), force)])
    case Store(op) => if op in s.pending then StoreStep(s, op) else s
    case Renew(_) => s
    case Release(owner, epoch) => s.(cell := AfterRelease(s.cell, owner, epoch))
    case Expire => s.(cell := None)
  }

  function Run(s: State, es: seq<Event>): State
    decreases |es|
  {
    if es == [] then s else Run(Step(s, es[0]), es[1..])
  }

  function Boot(): State { State(0, None, map[], []) }

  /** An acquire draws the next epoch, one above the counter; a claim then lands exactly on an empty key. */
  lemma AcquiresSo(s: State, op: OpId, owner: Instance, force: bool)
    requires op !in s.pending
    ensures var s' := Step(Step(s, Incr(op, owner, force)), Store(op));
            && s'.counter == s.counter + 1 && s'.pending == s.pending
            && s'.cell == if force || s.cell.None? then Some(Lease(owner, s.counter + 1)) else s.cell
  {
  }

  lemma DrawsOnce(s: State, op: OpId, owner: Instance, force: bool)
    requires op in s.pending
    ensures Step(s, Incr(op, owner, force)) == s
  {
  }

  /** A lapse leaves the key to whoever claims it next. */
  lemma LapseFreesTheKey(s: State, op: OpId, owner: Instance)
    requires op !in s.pending
    ensures Step(Step(Step(s, Expire), Incr(op, owner, false)), Store(op)).cell == Some(Lease(owner, s.counter + 1))
  {
    AcquiresSo(Step(s, Expire), op, owner, false);
  }

  // ---- epochs are never shared ----

  ghost predicate EpochsDistinct(ls: seq<Lease>) {
    forall i, j | 0 <= i < j < |ls| :: ls[i].epoch != ls[j].epoch
  }

  // Every drawn epoch is in one place only: one stored lease, or one acquire still to send its SET.
  ghost predicate Inv(s: State) {
    && EpochsDistinct(s.stored)
    && (forall l | l in s.stored :: l.epoch <= s.counter)
    && (forall op | op in s.pending :: s.pending[op].lease.epoch <= s.counter)
    && (forall op, i | op in s.pending && 0 <= i < |s.stored| :: s.stored[i].epoch != s.pending[op].lease.epoch)
    && (forall o, p | o in s.pending && p in s.pending && o != p ::
          s.pending[o].lease.epoch != s.pending[p].lease.epoch)
    && (s.cell.Some? ==> |s.stored| > 0 && s.cell.value == s.stored[|s.stored| - 1])
  }

  lemma StoreKeepsInv(s: State, op: OpId)
    requires Inv(s) && op in s.pending
    ensures Inv(StoreStep(s, op))
  {
    var s' := StoreStep(s, op);
    assert forall i | 0 <= i < |s.stored| :: s'.stored[i] == s.stored[i];
  }

  lemma StepKeepsInv(s: State, e: Event)
    requires Inv(s)
    ensures Inv(Step(s, e))
  {
    if e.Store? && e.op in s.pending {
      StoreKeepsInv(s, e.op);
    }
  }

  lemma {:induction false} RunKeepsInv(s: State, es: seq<Event>)
    requires Inv(s)
    ensures Inv(Run(s, es))
    decreases |es|
  {
    if es != [] {
      StepKeepsInv(s, es[0]);
      RunKeepsInv(Step(s, es[0]), es[1..]);
    }
  }

  /**
   In every run: no two leases ever stored share an epoch, none exceeds the counter, and what the cell holds
   is the lease stored last.
   */
  lemma StoredEpochsAreDistinct(es: seq<Event>)
    ensures var s := Run(Boot(), es);
            && (forall i, j | 0 <= i < |s.stored| && 0 <= j < |s.stored| &&
                  s.stored[i].epoch == s.stored[j].epoch :: i == j)
            && (forall l | l in s.stored :: l.epoch <= s.counter)
            && (s.cell.Some? ==> |s.stored| > 0 && s.cell.value == s.stored[|s.stored| - 1])
  {
    RunKeepsInv(Boot(), es);
  }

  lemma {:induction false} HistoryGrows(s: State, es: seq<Event>)
    ensures s.stored <= Run(s, es).stored
    decreases |es|
  {
    if es != [] {
      HistoryGrows(Step(s, es[0]), es[1..]);
    }
  }

  /**
   However late it arrives, a release sent for the i-th acquisition removes the cell's lease exactly when that
   lease is still the i-th one; a lease stored by any later operation, of the same instance or another, stays.
   */
  lemma ReleaseIsExact(es: seq<Event>, i: nat)
    requires i < |Run(Boot(), es).stored|
    ensures var s := Run(Boot(), es);
            var s' := Step(s, Release(s.stored[i].owner, s.stored[i].epoch));
            s'.cell == if s.cell.Some? && i == |s.stored| - 1 then None else s.cell
  {
    RunKeepsInv(Boot(), es);
  }

  /** The same from the moment the lease was won: whatever ran since, its release never hits a newer lease. */
  lemma LateReleaseSparesSuccessors(s: State, op: OpId, es: seq<Event>)
    requires Inv(s) && Lands(s, op)
    ensures var mine := s.pending[op].lease;
            var later := Run(Step(s, Store(op)), es);
            && |later.stored| > |s.stored| && later.stored[|s.stored|] == mine
            && (|later.stored| > |s.stored| + 1 ==> Step(later, Release(mine.owner, mine.epoch)) == later)
            && (later.cell.Some? && later.cell.value != mine ==> Step(later, Release(mine.owner, mine.epoch)) == later)
  {
    var s1 := Step(s, Store(op));
    StepKeepsInv(s, Store(op));
    RunKeepsInv(s1, es);
    HistoryGrows(s1, es);
    assert s1.stored[|s.stored|] == s.pending[op].lease;
  }

  // ---- when stored epochs increase ----

  ghost predicate Increasing(ls: seq<Lease>) {
    forall i, j | 0 <= i < j < |ls| :: ls[i].epoch < ls[j].epoch
  }

  // No other INCR between the INCR of an acquire and its SET, at this event.
  predicate FencedAt(s: State, e: Event) {
    e.Store? && Lands(s, e.op) ==> s.pending[e.op].lease.epoch == s.counter
  }

  predicate FencedRun(s: State, es: seq<Event>)
    decreases |es|
  {
    es == [] || (FencedAt(s, es[0]) && FencedRun(Step(s, es[0]), es[1..]))
  }

  // Every SET that lands finds only earlier INCRs' leases stored before it.
  predicate StoresInDrawOrder(s: State, es: seq<Event>)
    decreases |es|
  {
    es == [] ||
    ((es[0].Store? && Lands(s, es[0].op) && |s.stored| > 0 ==>
        s.stored[|s.stored| - 1].epoch < s.pending[es[0].op].lease.epoch)
     && StoresInDrawOrder(Step(s, es[0]), es[1..]))
  }

  lemma IncreasingExtends(ls: seq<Lease>, l: Lease)
    ensures Increasing(ls + [l]) <==> Increasing(ls) && (|ls| > 0 ==> ls[|ls| - 1].epoch < l.epoch)
  {
    var ext := ls + [l];
    if Increasing(ext) {
      assert forall i | 0 <= i < |ls| :: ls[i] == ext[i];
      assert |ls| > 0 ==> ext[|ls| - 1].epoch < ext[|ls|].epoch;
    }
  }

  lemma NotIncreasingStays(ls: seq<Lease>, ext: seq<Lease>)
    requires ls <= ext && !Increasing(ls)
    ensures !Increasing(ext)
  {
    var i, j :| 0 <= i < j < |ls| && !(ls[i].epoch < ls[j].epoch);
    assert ext[i] == ls[i] && ext[j] == ls[j];
  }

  // One event: the history grows by the lease that lands, and stays increasing exactly if that one is newer.
  lemma StepIncreasing(s: State, e: Event)
    requires Increasing(s.stored)
    ensures s.stored <= Step(s, e).stored
    ensures Increasing(Step(s, e).stored) <==>
            (e.Store? && Lands(s, e.op) && |s.stored| > 0 ==>
               s.stored[|s.stored| - 1].epoch < s.pending[e.op].lease.epoch)
  {
    if e.Store? && Lands(s, e.op) {
      IncreasingExtends(s.stored, s.pending[e.op].lease);
    }
  }

  /** Epochs increase along the stored leases exactly when the SETs that land do so in the order of their INCRs. */
  lemma {:induction false} IncreasingIffInDrawOrder(s: State, es: seq<Event>)
    requires Increasing(s.stored)
    ensures Increasing(Run(s, es).stored) <==> StoresInDrawOrder(s, es)
    decreases |es|
  {
    if es != [] {
      var s1 := Step(s, es[0]);
      StepIncreasing(s, es[0]);
      if Increasing(s1.stored) {
        IncreasingIffInDrawOrder(s1, es[1..]);
      } else {
        HistoryGrows(s1, es[1..]);
        NotIncreasingStays(s1.stored, Run(s, es).stored);
      }
    }
  }

  lemma {:induction false} FencedIsInDrawOrder(s: State, es: seq<Event>)
    requires Inv(s) && FencedRun(s, es)
    ensures StoresInDrawOrder(s, es)
    decreases |es|
  {
    if es != [] {
      var e := es[0];
      if e.Store? && Lands(s, e.op) && |s.stored| > 0 {
        assert s.stored[|s.stored| - 1] in s.stored;
      }
      StepKeepsInv(s, e);
      FencedIsInDrawOrder(Step(s, e), es[1..]);
    }
  }

  /** Strict increase over whole runs in which nobody else's INCR falls between an acquire's INCR and its SET. */
  lemma FencedRunsIncrease(es: seq<Event>)
    requires FencedRun(Boot(), es)
    ensures Increasing(Run(Boot(), es).stored)
  {
    FencedIsInDrawOrder(Boot(), es);
    IncreasingIffInDrawOrder(Boot(), es);
  }

  /** Without that, two forced takeovers are enough to store a newer epoch and then an older one. */
  lemma EpochsCanRegress(a: Instance, b: Instance)
    ensures var s := Run(Boot(), [Incr(0, a, true), Incr(1, b, true), Store(1), Store(0)]);
            s.stored == [Lease(b, 2), Lease(a, 1)] && s.cell == Some(Lease(a, 1)) && s.counter == 2
  {
    var es := [Incr(0, a, true), Incr(1, b, true), Store(1), Store(0)];
    var s1 := Step(Boot(), es[0]);
    var s2 := Step(s1, es[1]);
    var s3 := Step(s2, es[2]);
    assert s2.pending == map[0 := Acquire(Lease(a, 1), true), 1 := Acquire(Lease(b, 2), true)];
    assert s3.stored == [Lease(b, 2)] && s3.pending[0] == Acquire(Lease(a, 1), true);
    var s4 := Step(s3, es[3]);
    assert s4.stored == [Lease(b, 2), Lease(a, 1)];
    assert es[1..][0] == es[1] && es[1..][1..][0] == es[2] && es[1..][1..][1..] == [es[3]];
    assert Run(s3, [es[3]]) == Run(s4, [es[3]][1..]);
    assert Run(Boot(), es) == Run(s1, es[1..]) == Run(s2, es[1..][1..]) == Run(s3, es[1..][1..][1..]);
  }

  // ---- a background claim never takes a held lease ----

  // No forced store by somebody else, no release of this very lease, no expiry.
  predicate Spares(s: State, e: Event, held: Lease) {
    match e
    case Store(op) => op in s.pending ==> !s.pending[op].force
    case Release(owner, epoch) => Lease(owner, epoch) != held
    case Expire => false
    case _ => true
  }

  predicate SparesAll(s: State, es: seq<Event>, held: Lease)
    decreases |es|
  {
    es == [] || (Spares(s, es[0], held) && SparesAll(Step(s, es[0]), es[1..], held))
  }

  /**
   A held lease is unmoved by any number of background claims, foreign releases, releases of its owner's
   other epochs and renewals; meanwhile its owner's renewal answers "renewed" and everybody else's "lost".
   */
  lemma {:induction false} HeldLeaseStands(s: State, es: seq<Event>, held: Lease)
    requires s.cell == Some(held) && SparesAll(s, es, held)
    ensures Run(s, es).cell == Some(held)
    ensures forall o: Instance :: RenewReply(Run(s, es).cell, o) == if o == held.owner then Renewed else Lost
    decreases |es|
  {
    if es != [] {
      HeldLeaseStands(Step(s, es[0]), es[1..], held);
    }
  }

  /** One phone's two keys as the source's functions use them. */
  class LeaseKeys {
    var counter: nat
    var cell: Option<Lease>

    constructor ()
      ensures counter == 0 && cell == None
    {
      counter, cell := 0, None;
    }

    method Incr() returns (epoch: nat)
      modifies this`counter
      ensures epoch == counter == old(counter) + 1
    {
      counter := counter + 1;
      epoch := counter;
    }

    // `met` and `counted` are the two keys as the SET meets them, others having run since the INCR.
    method AcquireLease(me: Instance, met: Option<Lease>, counted: nat) returns (lease: Option<Lease>)
      requires counter < counted
      modifies this
      ensures lease == if met.None? then Some(Lease(me, old(counter) + 1)) else None
      ensures cell == if met.None? then lease else met
      ensures counter == counted
    {
      var epoch := Incr();
      cell, counter := met, counted;
      if cell.Some? {
        return None;
      }
      cell := Some(Lease(me, epoch));
      lease := cell;
    }

    method ForceAcquireLease(me: Instance, met: Option<Lease>, counted: nat) returns (lease: Lease)
      requires counter < counted
      modifies this
      ensures lease == Lease(me, old(counter) + 1) && cell == Some(lease) && counter == counted
    {
      var epoch := Incr();
      cell, counter := met, counted;
      lease := Lease(me, epoch);
      cell := Some(lease);
    }

    method RenewLease(me: Instance) returns (r: RenewResult)
      ensures r == RenewReply(cell, me)
      ensures r == Renewed <==> cell.Some? && cell.value.owner == me
      ensures r == Missing <==> cell.None?
    {
      match cell {
        case None => r := Missing;
        case Some(lease) => r := if lease.owner == me then Renewed else Lost;
      }
    }

    method ReleaseLease(me: Instance, expectedEpoch: nat) returns (released: bool)
      modifies this`cell
      ensures cell == AfterRelease(old(cell), me, expectedEpoch)
      ensures released <==> old(cell) == Some(Lease(me, expectedEpoch))
    {
      if cell.None? || cell.value.owner != me || cell.value.epoch != expectedEpoch {
        return false;
      }
      cell := None;
      released := true;
    }
  }
}
