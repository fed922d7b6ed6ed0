/**
 One phone's auth hash and the owner fence in front of it: every write, clear and compare-and-swap is one
 script that first looks at the lease cell.
 */
module AuthState {
  import opened Wrappers
  import LeaseStore

  type Instance = LeaseStore.Instance
  type Field = string
  type Value = string

  // None stands for the delete sentinel.
  datatype Pair = Pair(field: Field, value: Option<Value>)

  datatype State = State(lease: LeaseStore.State, hash: map<Field, Value>)

  const CREDS: Field := "creds"
  const CANDIDATES: Field := "import-candidates"

  datatype Event =
    | OnLease(e: LeaseStore.Event)
    | Write(writer: Instance, pairs: seq<Pair>)
    | Clear(writer: Instance)
    | Swap(writer: Instance, expectedCreds: Value, creds: Value, cursor: Value)

  // A missing lease lets anybody write.
  predicate Admits(cell: Option<LeaseStore.Lease>, writer: Instance) {
    cell.Some? ==> cell.value.owner == writer
  }

  function ApplyPairs(hash: map<Field, Value>, pairs: seq<Pair>): map<Field, Value>
    decreases |pairs|
  {
    if pairs == [] then hash
    else
      var p := pairs[0];
      ApplyPairs(if p.value.None? then hash - {p.field} else hash[p.field := p.value.value], pairs[1..])
  }

  // What a script does to the hash once past the fence.
  function Effect(hash: map<Field, Value>, e: Event): map<Field, Value> {
    match e
    case OnLease(_) => hash
    case Write(_, pairs) => ApplyPairs(hash, pairs)
    case Clear(_) => map[]
    case Swap(_, expected, creds, cursor) =>
      if CREDS in hash && hash[CREDS] == expected then hash[CREDS := creds][CANDIDATES := cursor] else hash
  }

  function Step(s: State, e: Event): State {
    match e
    case OnLease(le) => s.(lease := LeaseStore.Step(s.lease, le))
    case _ => if Admits(s.lease.cell, e.writer) then s.(hash := Effect(s.hash, e)) else s
  }

  function Run(s: State, es: seq<Event>): State
    decreases |es|
  {
    if es == [] then s else Run(Step(s, es[0]), es[1..])
  }

  /** A write by an instance that does not own the lease lands only while nobody does. */
  lemma ForeignWritesNeedNoLease(s: State, e: Event)
    requires !e.OnLease? && Step(s, e).hash != s.hash
    ensures s.lease.cell.None? || s.lease.cell.value.owner == e.writer
    ensures Step(s, e).lease == s.lease
  {
  }

  /**
   The import's swap: past the fence it writes the creds and the cursor together, exactly when the creds stored are
   the ones it expected; otherwise, or fenced off, nothing. A clear past the fence leaves nothing.
   */
  lemma SwapsIff(s: State, writer: Instance, expected: Value, creds: Value, cursor: Value)
    ensures var free := s.lease.cell.None? || s.lease.cell.value.owner == writer;
            && Step(s, Swap(writer, expected, creds, cursor)).hash ==
               (if free && CREDS in s.hash && s.hash[CREDS] == expected
                then s.hash[CREDS := creds][CANDIDATES := cursor] else s.hash)
            && Step(s, Clear(writer)).hash == (if free then map[] else s.hash)
  {
  }

  // ---- one owner's term ----

  // `owner` holds the lease, under whatever epoch, at every script of the run.
  predicate Term(s: State, es: seq<Event>, owner: Instance)
    decreases |es|
  {
    es == [] ||
    ((es[0].OnLease? || (s.lease.cell.Some? && s.lease.cell.value.owner == owner))
         && Term(Step(s, es[0]), es[1..], owner))
  }

  function ScriptsOf(es: seq<Event>, owner: Instance): (own: seq<Event>)
    ensures forall e | e in own :: !e.OnLease? && e.writer == owner
    decreases |es|
  {
    if es == [] then []
    else if !es[0].OnLease? && es[0].writer == owner then [es[0]] + ScriptsOf(es[1..], owner)
    else ScriptsOf(es[1..], owner)
  }

  function Replay(hash: map<Field, Value>, es: seq<Event>): map<Field, Value>
    decreases |es|
  {
    if es == [] then hash else Replay(Effect(hash, es[0]), es[1..])
  }

  /** Through one instance's term the hash is what its own scripts, in order, made of it; all others' did nothing. */
  lemma {:induction false} TermReplaysOwner(s: State, es: seq<Event>, owner: Instance)
    requires Term(s, es, owner)
    ensures Run(s, es).hash == Replay(s.hash, ScriptsOf(es, owner))
    decreases |es|
  {
    if es != [] {
      var rest := ScriptsOf(es[1..], owner);
      TermReplaysOwner(Step(s, es[0]), es[1..], owner);
      if !es[0].OnLease? && es[0].writer == owner {
        assert ([es[0]] + rest)[1..] == rest;
      }
    }
  }

  function LeaseEvents(es: seq<Event>): seq<LeaseStore.Event>
    decreases |es|
  {
    if es == [] then []
    else if es[0].OnLease? then [es[0].e] + LeaseEvents(es[1..])
    else LeaseEvents(es[1..])
  }

  lemma {:induction false} SparedLeaseIsATerm(s: State, es: seq<Event>, held: LeaseStore.Lease)
    requires s.lease.cell == Some(held) && LeaseStore.SparesAll(s.lease, LeaseEvents(es), held)
    ensures Term(s, es, held.owner)
    decreases |es|
  {
    if es != [] {
      if es[0].OnLease? {
        var all := LeaseEvents(es);
        assert all[0] == es[0].e && all[1..] == LeaseEvents(es[1..]);
      }
      SparedLeaseIsATerm(Step(s, es[0]), es[1..], held);
    }
  }

  /**
   While a lease is neither force-taken, released by its own owner and epoch, nor expired, nothing any other
   instance sends can reach the hash, however many claims and stale releases fall in between.
   */
  lemma HeldLeaseFencesOthersOut(s: State, es: seq<Event>, held: LeaseStore.Lease)
    requires s.lease.cell == Some(held) && LeaseStore.SparesAll(s.lease, LeaseEvents(es), held)
    ensures Run(s, es).hash == Replay(s.hash, ScriptsOf(es, held.owner))
  {
    SparedLeaseIsATerm(s, es, held);
    TermReplaysOwner(s, es, held.owner);
  }

  /** Between a lapse and the next claim the fence is open: the old owner's late write still lands. */
  lemma LapseOpensTheFence(s: State, stale: Instance, field: Field, value: Value)
    ensures Run(s, [OnLease(LeaseStore.Expire), Write(stale, [Pair(field, Some(value))])])
                .hash == s.hash[field := value]
  {
    var es := [OnLease(LeaseStore.Expire), Write(stale, [Pair(field, Some(value))])];
    var s1 := Step(s, es[0]);
    assert es[1..] == [es[1]] && [es[1]][1..] == [];
    assert Run(s, es) == Run(s1, es[1..]) == Run(Step(s1, es[1]), []);
    assert [Pair(field, Some(value))][1..] == [];
    assert ApplyPairs(s.hash, [Pair(field, Some(value))]) == ApplyPairs(s.hash[field := value], []);
  }

  // ---- a batch of pairs ----

  // The last pair naming a field decides it.
  function LastFor(pairs: seq<Pair>, field: Field): (k: int)
    ensures -1 <= k < |pairs|
    ensures k >= 0 ==> pairs[k].field == field
    ensures forall i | k < i < |pairs| :: pairs[i].field != field
  {
    if pairs == [] then -1
    else if pairs[|pairs| - 1].field == field then |pairs| - 1
    else LastFor(pairs[..|pairs| - 1], field)
  }

  lemma {:induction false} ApplySnoc(hash: map<Field, Value>, pairs: seq<Pair>, p: Pair)
    ensures ApplyPairs(hash, pairs + [p])
         == if p.value.None? then ApplyPairs(hash, pairs) - {p.field}
            else ApplyPairs(hash, pairs)[p.field := p.value.value]
    decreases |pairs|
  {
    var all := pairs + [p];
    if pairs == [] {
      assert all[1..] == [];
    } else {
      var q := pairs[0];
      assert all[1..] == pairs[1..] + [p];
      ApplySnoc(if q.value.None? then hash - {q.field} else hash[q.field := q.value.value], pairs[1..], p);
    }
  }

  /** After a batch, every field is as the last pair naming it says, and as it was when none does. */
  lemma {:induction false} BatchIsPerField(hash: map<Field, Value>, pairs: seq<Pair>, field: Field)
    ensures var after := ApplyPairs(hash, pairs);
            var k := LastFor(pairs, field);
            if k < 0 then (field in after <==> field in hash) && (field in hash ==> after[field] == hash[field])
            else (field in after <==> pairs[k].value.Some?) && (field in after ==> Some(after[field]) == pairs[k].value)
    decreases |pairs|
  {
    if pairs != [] {
      var init, last := pairs[..|pairs| - 1], pairs[|pairs| - 1];
      assert pairs == init + [last];
      ApplySnoc(hash, init, last);
      BatchIsPerField(hash, init, field);
    }
  }

  // ---- the functions themselves ----

  class RedisAuthState {
    var lease: Option<LeaseStore.Lease>
    var hash: map<Field, Value>

    constructor ()
      ensures lease == None && hash == map[]
    {
      lease, hash := None, map[];
    }

    method FencedAuthWrite(me: Instance, pairs: seq<Pair>) returns (written: bool)
      modifies this`hash
      ensures written <==> pairs == [] || Admits(lease, me)
      ensures hash == if written then ApplyPairs(old(hash), pairs) else old(hash)
    {
      if |pairs| == 0 {
        return true;
      }
      if lease.Some? && lease.value.owner != me {
        return false;
      }
      for i := 0 to |pairs|
        invariant hash == ApplyPairs(old(hash), pairs[..i])
      {
        assert pairs[..i + 1] == pairs[..i] + [pairs[i]];
        ApplySnoc(old(hash), pairs[..i], pairs[i]);
        if pairs[i].value.None? {
          hash := hash - {pairs[i].field};
        } else {
          hash := hash[pairs[i].field := pairs[i].value.value];
        }
      }
      assert pairs[..|pairs|] == pairs;
      written := true;
    }

    // An empty hash is no key at all, so DEL answers 0 for it as the fence does.
    method ClearIfOwner(me: Instance) returns (result: nat)
      modifies this`hash
      ensures hash == if Admits(lease, me) then map[] else old(hash)
      ensures result == 0 <==> !Admits(lease, me) || old(hash) == map[]
    {
      if lease.Some? && lease.value.owner != me {
        return 0;
      }
      result := if hash == map[] then 0 else 1;
      hash := map[];
    }

    /** The 0 is ambiguous, the answer is not: true exactly when nothing is stored afterwards. */
    method ClearRedisAuthState(me: Instance) returns (cleared: bool)
      modifies this`hash
      ensures cleared <==> hash == map[]
      ensures hash == if Admits(lease, me) then map[] else old(hash)
      ensures !cleared <==> !Admits(lease, me) && old(hash) != map[]
    {
      var result := ClearIfOwner(me);
      if result != 0 {
        return true;
      }
      cleared := hash == map[];
    }
  }
}
