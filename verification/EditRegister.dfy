/**
 The ordering guard of edits: one position per edited message, kept in claim order in a bounded memory, and one
 delivery chain per message, whose entry keeps the message's position from being evicted.
 */
module EditRegister {
  import opened Wrappers

  const EDIT_POSITION_MEMORY := 1000

  type Id = string

  datatype Position = Position(at: int, eventSeq: nat, rank: nat)

  predicate Before(p: Position, q: Position) {
    if p.at != q.at then p.at < q.at else if p.eventSeq != q.eventSeq then p.eventSeq < q.eventSeq else p.rank < q.rank
  }

  predicate AtMost(p: Position, q: Position) {
    p == q || Before(p, q)
  }

  // One promise chain: its works in the order they were enqueued, and what editDeliveries holds for it.
  // A settled work is drained once its finally() has run.
  datatype Phase = Waiting | Running | Settled | Drained
  datatype Work = Work(previous: Option<nat>, phase: Phase)
  datatype Chain = Chain(works: seq<Work>, entry: Option<nat>)

  // editedAt is an insertion-ordered map: `keys` is that order.
  datatype Memory = Memory(keys: seq<Id>, at: map<Id, Position>)
  datatype State = State(memory: Memory, chains: map<Id, Chain>)

  datatype Event =
    | Claim(id: Id, position: Position)
    | Enqueue(id: Id)
    | Start(id: Id, k: nat)
    | Settle(id: Id, k: nat)
    | Drain(id: Id, k: nat)       // the finally() of a settled work

  // ---- claiming ----

  predicate Superseded(m: Memory, id: Id, position: Position) {
    id in m.at && Before(position, m.at[id])
  }

  function Without(keys: seq<Id>, id: Id): (r: seq<Id>)
    ensures forall k :: k in r <==> k in keys && k != id
    ensures id !in keys ==> r == keys
  {
    if keys == [] then []
    else if keys[0] == id then Without(keys[1..], id)
    else [keys[0]] + Without(keys[1..], id)
  }

  // What the eviction loop leaves when it may take `excess` keys: the first ones not protected go.
  function Survivors(keys: seq<Id>, protected: set<Id>, excess: nat): (r: seq<Id>)
    ensures forall k :: k in r ==> k in keys
    ensures forall k :: k in keys && k in protected ==> k in r
    decreases |keys|
  {
    if excess == 0 || keys == [] then keys
    else if keys[0] in protected then [keys[0]] + Survivors(keys[1..], protected, excess)
    else Survivors(keys[1..], protected, excess - 1)
  }

  function Over(n: nat): nat {
    if n > EDIT_POSITION_MEMORY then n - EDIT_POSITION_MEMORY else 0
  }

  function Restrict(at: map<Id, Position>, keys: seq<Id>): map<Id, Position> {
    map k | k in at && k in keys :: at[k]
  }

  function Recorded(m: Memory, id: Id, position: Position, protected: set<Id>): Memory {
    var keys := Without(m.keys, id) + [id];
    var kept := Survivors(keys, protected, Over(|keys|));
    Memory(kept, Restrict(m.at[id := position], kept))
  }

  function Claimed(m: Memory, id: Id, position: Position, protected: set<Id>): Memory {
    if Superseded(m, id, position) then m else Recorded(m, id, position, protected)
  }

  // ---- one delivery chain ----

  function EmptyChain(): Chain { Chain([], None) }

  function ChainOf(s: State, id: Id): Chain {
    if id in s.chains then s.chains[id] else EmptyChain()
  }

  function InDelivery(chains: map<Id, Chain>): set<Id> {
    set id | id in chains && chains[id].entry.Some?
  }

  function Protected(s: State): set<Id> {
    InDelivery(s.chains)
  }

  predicate IsOver(phase: Phase) {
    phase.Settled? || phase.Drained?
  }

  predicate CanStart(c: Chain, k: nat) {
    k < |c.works| && c.works[k].phase.Waiting?
    && (c.works[k].previous.None? ||
        (c.works[k].previous.value < |c.works| && IsOver(c.works[c.works[k].previous.value].phase)))
  }

  function EnqueueOn(c: Chain): Chain {
    Chain(c.works + [Work(c.entry, Waiting)], Some(|c.works|))
  }

  function SetPhase(c: Chain, k: nat, phase: Phase): Chain
    requires k < |c.works|
  {
    c.(works := c.works[k := c.works[k].(phase := phase)])
  }

  function ChainStep(c: Chain, e: Event): Chain {
    match e
    case Enqueue(_) => EnqueueOn(c)
    case Start(_, k) => if CanStart(c, k) then SetPhase(c, k, Running) else c
    case Settle(_, k) => if k < |c.works| && c.works[k].phase.Running? then SetPhase(c, k, Settled) else c
    case Drain(_, k) =>
      if k < |c.works| && c.works[k].phase.Settled?
      then SetPhase(c, k, Drained).(entry := if c.entry == Some(k) then None else c.entry) else c
    case Claim(_, _) => c
  }

  function Step(s: State, e: Event): State {
    match e
    case Claim(id, position) => s.(memory := Claimed(s.memory, id, position, Protected(s)))
    case _ => s.(chains := s.chains[e.id := ChainStep(ChainOf(s, e.id), e)])
  }

  function Run(s: State, es: seq<Event>): State
    decreases |es|
  {
    if es == [] then s else Run(Step(s, es[0]), es[1..])
  }

  function Boot(): State { State(Memory([], map[]), map[]) }

  // ---- the memory stays a map, and stays bounded ----

  ghost predicate Distinct(keys: seq<Id>) {
    forall i, j | 0 <= i < j < |keys| :: keys[i] != keys[j]
  }

  ghost predicate MemoryOk(m: Memory) {
    Distinct(m.keys) && (forall k :: k in m.keys <==> k in m.at)
  }

  lemma {:induction false} WithoutIsDistinct(keys: seq<Id>, id: Id)
    requires Distinct(keys)
    ensures Distinct(Without(keys, id)) && |Without(keys, id)| == |keys| - (if id in keys then 1 else 0)
  {
    if keys != [] {
      assert forall i | 1 <= i < |keys| :: keys[0] != keys[i];
      assert keys[0] !in keys[1..];
      WithoutIsDistinct(keys[1..], id);
    }
  }

  function Unprotected(keys: seq<Id>, protected: set<Id>): nat {
    if keys == [] then 0 else (if keys[0] in protected then 0 else 1) + Unprotected(keys[1..], protected)
  }

  /** Eviction takes exactly as many as are over the cap, or every unprotected key when those are fewer. */
  lemma {:induction false} SurvivorsCount(keys: seq<Id>, protected: set<Id>, excess: nat)
    requires Distinct(keys)
    ensures var r := Survivors(keys, protected, excess);
            && Distinct(r)
            && |r| == |keys| - (if excess <= Unprotected(keys, protected) then excess else Unprotected(keys, protected))
            && (excess > Unprotected(keys, protected) ==> forall k | k in r :: k in protected)
    decreases |keys|
  {
    if excess == 0 {
      UnprotectedZero(keys, protected);
    } else if keys != [] {
      assert forall i | 1 <= i < |keys| :: keys[0] != keys[i];
      SurvivorsCount(keys[1..], protected, if keys[0] in protected then excess else excess - 1);
    }
  }

  lemma {:induction false} UnprotectedZero(keys: seq<Id>, protected: set<Id>)
    ensures Unprotected(keys, protected) == 0 <==> forall k | k in keys :: k in protected
    ensures Unprotected(keys, protected) <= |keys|
    decreases |keys|
  {
    if keys != [] {
      UnprotectedZero(keys[1..], protected);
      assert forall k :: k in keys <==> k == keys[0] || k in keys[1..];
    }
  }

  /** And it takes the oldest ones: nothing unprotected is kept while something claimed later is dropped. */
  lemma {:induction false} SurvivorsAreNewest(keys: seq<Id>, protected: set<Id>, excess: nat, i: nat, j: nat)
    requires Distinct(keys) && i < j < |keys| && keys[i] !in protected
    requires keys[i] in Survivors(keys, protected, excess)
    ensures keys[j] in Survivors(keys, protected, excess)
    decreases |keys|
  {
    if excess > 0 {
      var rest := keys[1..];
      DistinctTail(keys);
      assert keys[j] == rest[j - 1];
      if keys[0] in protected {
        assert i > 0 && keys[i] == rest[i - 1];
        SurvivorsAreNewest(rest, protected, excess, i - 1, j - 1);
      } else {
        assert keys[0] !in Survivors(rest, protected, excess - 1);
        assert i > 0 && keys[i] == rest[i - 1];
        SurvivorsAreNewest(rest, protected, excess - 1, i - 1, j - 1);
      }
    }
  }

  lemma DistinctTail(keys: seq<Id>)
    requires Distinct(keys) && keys != []
    ensures Distinct(keys[1..]) && keys[0] !in keys[1..]
  {
    assert forall n | 1 <= n < |keys| :: keys[0] != keys[n];
  }

  lemma ClaimKeepsMemory(m: Memory, id: Id, position: Position, protected: set<Id>)
    requires MemoryOk(m)
    ensures MemoryOk(Claimed(m, id, position, protected))
  {
    if !Superseded(m, id, position) {
      WithoutIsDistinct(m.keys, id);
      var keys := Without(m.keys, id) + [id];
      assert Distinct(keys);
      SurvivorsCount(keys, protected, Over(|keys|));
    }
  }

  // The newest key stays if any unprotected one does.
  lemma NewestGoesLast(keys: seq<Id>, protected: set<Id>, excess: nat, k: Id)
    requires Distinct(keys) && k in Survivors(keys, protected, excess) && k !in protected
    ensures keys[|keys| - 1] in Survivors(keys, protected, excess)
  {
  }

  lemma {:induction false} LastSurvives(keys: seq<Id>, id: Id, protected: set<Id>, excess: nat)
    requires id !in keys && id !in protected
    ensures id in Survivors(keys + [id], protected, excess) <==> excess <= Unprotected(keys, protected)
    decreases |keys|
  {
    var all := keys + [id];
    if keys == [] {
      assert all[1..] == [];
    } else if excess > 0 {
      assert all[0] == keys[0] && all[1..] == keys[1..] + [id];
      LastSurvives(keys[1..], id, protected, if keys[0] in protected then excess else excess - 1);
    }
  }

  // How many of these are under delivery.
  function ProtectedCount(keys: seq<Id>, protected: set<Id>): int {
    |keys| - Unprotected(keys, protected)
  }

  /**
   An accepted position is in the memory afterwards exactly when its message is under delivery or fewer than a
   thousand other remembered messages are; otherwise, and only then, an older edit of it is accepted next.
   */
  lemma ClaimIsKeptIff(m: Memory, id: Id, position: Position, protected: set<Id>)
    requires MemoryOk(m) && !Superseded(m, id, position)
    ensures var kept := id in protected || ProtectedCount(Without(m.keys, id), protected) < 1000;
            var m' := Claimed(m, id, position, protected);
            && (id in m'.at <==> kept)
            && (forall older :: Before(older, position) ==> (Superseded(m', id, older) <==> kept))
  {
    var others := Without(m.keys, id);
    if id !in protected {
      LastSurvives(others, id, protected, Over(|others + [id]|));
      UnprotectedZero(others, protected);
    }
  }

  /**
   After an accepted claim the memory holds at most a thousand positions or nothing but messages under
   delivery; no message under delivery has lost its own; and the new position is there unless the rest of the
   memory is full of protected ones and its own message is not.
   */
  lemma ClaimIsBounded(m: Memory, id: Id, position: Position, protected: set<Id>)
    requires MemoryOk(m) && !Superseded(m, id, position)
    ensures var m' := Claimed(m, id, position, protected);
            && (|m'.keys| <= EDIT_POSITION_MEMORY || forall k | k in m'.keys :: k in protected)
            && (forall k | k in m.at && k in protected && k != id :: k in m'.at && m'.at[k] == m.at[k])
            && (id in m'.at ==> m'.at[id] == position)
            && (id !in m'.at ==>
                  |m'.keys| >= EDIT_POSITION_MEMORY && id !in protected && forall k | k in m'.keys :: k in protected)
  {
    WithoutIsDistinct(m.keys, id);
    var keys := Without(m.keys, id) + [id];
    var excess := Over(|keys|);
    SurvivorsCount(keys, protected, excess);
    assert keys[|keys| - 1] == id;
    forall k | k in Survivors(keys, protected, excess) && k !in protected
      ensures id in Survivors(keys, protected, excess)
    {
      NewestGoesLast(keys, protected, excess, k);
    }
    ProtectedSurvive(m, id, position, protected);
  }

  lemma ProtectedSurvive(m: Memory, id: Id, position: Position, protected: set<Id>)
    requires MemoryOk(m)
    ensures forall k | k in m.at && k in protected && k != id ::
              k in Recorded(m, id, position, protected).at && Recorded(m, id, position, protected).at[k] == m.at[k]
  {
  }

  lemma {:induction false} AllKeptWhenProtected(keys: seq<Id>, id: Id, protected: set<Id>, excess: nat)
    requires excess > 0 && id !in protected && (forall k | k in keys :: k in protected)
    ensures Survivors(keys + [id], protected, excess) == keys
    decreases |keys|
  {
    var all := keys + [id];
    if keys == [] {
      assert all[1..] == [];
    } else {
      assert all[0] == keys[0] && all[1..] == keys[1..] + [id];
      AllKeptWhenProtected(keys[1..], id, protected, excess);
    }
  }

  /**
   The bound has that price: with a thousand messages under delivery, an edit applied to another message is
   forgotten at once, and an older edit of it is accepted afterwards.
   */
  lemma EvictionForgets(m: Memory, id: Id, newer: Position, older: Position, protected: set<Id>)
    requires MemoryOk(m) && id !in m.at && id !in protected && Before(older, newer)
    requires |m.keys| >= EDIT_POSITION_MEMORY && forall k | k in m.keys :: k in protected
    ensures var m' := Claimed(m, id, newer, protected); m'.keys == m.keys && !Superseded(m', id, older)
  {
    AllKeptWhenProtected(m.keys, id, protected, Over(|m.keys + [id]|));
  }

  // ---- last writer wins ----

  function Stored(m: Memory, id: Id): Option<Position> {
    if id in m.at then Some(m.at[id]) else None
  }

  function ClaimsFor(es: seq<Event>, id: Id): seq<Position>
    decreases |es|
  {
    if es == [] then []
    else if es[0].Claim? && es[0].id == id then [es[0].position] + ClaimsFor(es[1..], id)
    else ClaimsFor(es[1..], id)
  }

  function AcceptedFor(s: State, es: seq<Event>, id: Id): seq<Position>
    decreases |es|
  {
    if es == [] then []
    else
      var rest := AcceptedFor(Step(s, es[0]), es[1..], id);
      if es[0].Claim? && es[0].id == id && !Superseded(s.memory, id, es[0].position)
      then [es[0].position] + rest else rest
  }

  // Through the run, no claim evicts this message's position.
  predicate Kept(s: State, es: seq<Event>, id: Id)
    decreases |es|
  {
    es == [] ||
    ((es[0].Claim? && (id in s.memory.at || es[0].id == id) ==> id in Step(s, es[0]).memory.at)
     && Kept(Step(s, es[0]), es[1..], id))
  }

  // The newest of what is stored and a list of claims.
  function Newest(stored: Option<Position>, claims: seq<Position>): Option<Position>
    decreases |claims|
  {
    if claims == [] then stored
    else if stored.Some? && Before(claims[0], stored.value) then Newest(stored, claims[1..])
    else Newest(Some(claims[0]), claims[1..])
  }

  lemma OtherClaimSpares(m: Memory, id: Id, position: Position, protected: set<Id>, other: Id)
    requires other != id && other in Claimed(m, id, position, protected).at
    ensures other in m.at && Claimed(m, id, position, protected).at[other] == m.at[other]
  {
  }

  lemma {:induction false} StoredIsNewest(s: State, es: seq<Event>, id: Id)
    requires MemoryOk(s.memory) && Kept(s, es, id)
    ensures Stored(Run(s, es).memory, id) == Newest(Stored(s.memory, id), ClaimsFor(es, id))
    decreases |es|
  {
    if es != [] {
      var e := es[0];
      if e.Claim? {
        ClaimKeepsMemory(s.memory, e.id, e.position, Protected(s));
        if e.id == id {
          var claims := ClaimsFor(es, id);
          assert claims[0] == e.position && claims[1..] == ClaimsFor(es[1..], id);
        } else if id in Step(s, e).memory.at {
          OtherClaimSpares(s.memory, e.id, e.position, Protected(s), id);
        }
      }
      StoredIsNewest(Step(s, e), es[1..], id);
    }
  }

  lemma {:induction false} NewestIsMaximum(stored: Option<Position>, claims: seq<Position>)
    ensures var r := Newest(stored, claims);
            && (r.None? <==> stored.None? && claims == [])
            && (r.Some? ==> r == stored || r.value in claims)
            && (r.Some? ==>
                  && (stored.Some? ==> AtMost(stored.value, r.value))
                  && forall p | p in claims :: AtMost(p, r.value))
    decreases |claims|
  {
    if claims != [] {
      NewestIsMaximum(if stored.Some? && Before(claims[0], stored.value) then stored else Some(claims[0]), claims[1..]);
    }
  }

  /**
   However the edits of a message arrive, between whatever other claims and deliveries: as long as its
   position is not evicted, the position stored in the end is the lexicographic maximum of all that were
   claimed for it.
   */
  lemma LastWriterWins(es: seq<Event>, id: Id)
    requires Kept(Boot(), es, id)
    ensures var claims, stored := ClaimsFor(es, id), Stored(Run(Boot(), es).memory, id);
            && (stored.Some? <==> claims != [])
            && (stored.Some? ==> stored.value in claims && forall p | p in claims :: AtMost(p, stored.value))
  {
    StoredIsNewest(Boot(), es, id);
    NewestIsMaximum(None, ClaimsFor(es, id));
  }

  /** So the outcome does not depend on the order of arrival. */
  lemma ArrivalOrderIsIrrelevant(es: seq<Event>, fs: seq<Event>, id: Id)
    requires Kept(Boot(), es, id) && Kept(Boot(), fs, id)
    requires forall p :: p in ClaimsFor(es, id) <==> p in ClaimsFor(fs, id)
    ensures Stored(Run(Boot(), es).memory, id) == Stored(Run(Boot(), fs).memory, id)
  {
    LastWriterWins(es, id);
    LastWriterWins(fs, id);
    assert ClaimsFor(es, id) != [] ==> ClaimsFor(es, id)[0] in ClaimsFor(fs, id);
    assert ClaimsFor(fs, id) != [] ==> ClaimsFor(fs, id)[0] in ClaimsFor(es, id);
  }

  ghost predicate Climbing(from: Option<Position>, ps: seq<Position>) {
    && (from.Some? && ps != [] ==> Before(from.value, ps[0]))
    && (forall i | 0 <= i < |ps| - 1 :: Before(ps[i], ps[i + 1]))
  }

  lemma ClimbingCons(from: Option<Position>, p: Position, ps: seq<Position>)
    requires Climbing(Some(p), ps) && (from.Some? ==> Before(from.value, p))
    ensures Climbing(from, [p] + ps)
  {
  }

  ghost predicate AllDiffer(ps: seq<Position>) {
    forall i, j | 0 <= i < j < |ps| :: ps[i] != ps[j]
  }

  lemma AllDifferTail(p: Position, ps: seq<Position>)
    requires AllDiffer([p] + ps)
    ensures AllDiffer(ps) && p !in ps
  {
    var all := [p] + ps;
    forall i | 0 <= i < |ps|
      ensures ps[i] != p
    {
      assert all[0] != all[i + 1];
    }
    forall i, j | 0 <= i < j < |ps|
      ensures ps[i] != ps[j]
    {
      assert all[i + 1] != all[j + 1];
    }
  }

  /** The accepted claims of a message strictly increase when no two of its edits share a position. */
  lemma {:induction false} AcceptedClaimsIncrease(s: State, es: seq<Event>, id: Id)
    requires MemoryOk(s.memory) && Kept(s, es, id)
    requires AllDiffer(ClaimsFor(es, id))
    requires Stored(s.memory, id).Some? ==> s.memory.at[id] !in ClaimsFor(es, id)
    ensures Climbing(Stored(s.memory, id), AcceptedFor(s, es, id))
    decreases |es|
  {
    if es != [] {
      var e := es[0];
      var s1 := Step(s, e);
      var claims, rest := ClaimsFor(es, id), ClaimsFor(es[1..], id);
      if e.Claim? {
        ClaimKeepsMemory(s.memory, e.id, e.position, Protected(s));
      }
      if e.Claim? && e.id == id {
        assert claims == [e.position] + rest;
        AllDifferTail(e.position, rest);
        assert Stored(s1.memory, id) == Some(e.position) || Stored(s1.memory, id) == Stored(s.memory, id);
        AcceptedClaimsIncrease(s1, es[1..], id);
        if !Superseded(s.memory, id, e.position) {
          assert claims[0] == e.position;
          ClimbingCons(Stored(s.memory, id), e.position, AcceptedFor(s1, es[1..], id));
        }
      } else {
        if e.Claim? && id in s1.memory.at {
          OtherClaimSpares(s.memory, e.id, e.position, Protected(s), id);
        }
        AcceptedClaimsIncrease(s1, es[1..], id);
      }
    }
  }

  // One step of a run that keeps the message's position: an accepted claim of it is stored, and nothing else moves it.
  lemma StepStores(s: State, e: Event, id: Id)
    requires MemoryOk(s.memory) && (e.Claim? && (id in s.memory.at || e.id == id) ==> id in Step(s, e).memory.at)
    ensures MemoryOk(Step(s, e).memory)
    ensures Stored(Step(s, e).memory, id) ==
            if e.Claim? && e.id == id && !Superseded(s.memory, id, e.position) then Some(e.position)
            else Stored(s.memory, id)
  {
    if e.Claim? {
      ClaimKeepsMemory(s.memory, e.id, e.position, Protected(s));
      if e.id != id && id in Step(s, e).memory.at {
        OtherClaimSpares(s.memory, e.id, e.position, Protected(s), id);
      }
    }
  }

  function LastOf(claims: seq<Position>, stored: Option<Position>): Option<Position> {
    if claims == [] then stored else Some(claims[|claims| - 1])
  }

  lemma LastOfCons(p: Position, rest: seq<Position>, stored: Option<Position>)
    ensures LastOf([p] + rest, stored) == LastOf(rest, Some(p))
  {
  }

  /** What is stored in the end is the last claim accepted, if there was one, as long as nothing evicts it. */
  lemma {:induction false} LastAcceptedIsStored(s: State, es: seq<Event>, id: Id)
    requires MemoryOk(s.memory) && Kept(s, es, id)
    ensures Stored(Run(s, es).memory, id) == LastOf(AcceptedFor(s, es, id), Stored(s.memory, id))
    decreases |es|
  {
    if es != [] {
      var rest := AcceptedFor(Step(s, es[0]), es[1..], id);
      StepStores(s, es[0], id);
      LastAcceptedIsStored(Step(s, es[0]), es[1..], id);
      if es[0].Claim? {
        LastOfCons(es[0].position, rest, Stored(s.memory, id));
      }
    }
  }

  // ---- deliveries of one message ----

  predicate AllOverBefore(c: Chain, k: nat) {
    forall j | 0 <= j < k && j < |c.works| :: IsOver(c.works[j].phase)
  }

  ghost predicate ChainOk(c: Chain) {
    && (forall k | 0 <= k < |c.works| ::
          && (c.works[k].previous.None? ==> AllOverBefore(c, k))
          && (c.works[k].previous.Some? ==> k > 0 && c.works[k].previous.value == k - 1)
          && (!c.works[k].phase.Waiting? ==> AllOverBefore(c, k)))
    && (c.entry.Some? ==> c.entry.value == |c.works| - 1)
    && (c.entry.None? ==> AllOverBefore(c, |c.works|))
    && (c.entry.None? <==> c.works == [] || c.works[|c.works| - 1].phase.Drained?)
  }

  lemma ChainStepKeepsOk(c: Chain, e: Event)
    requires ChainOk(c)
    ensures ChainOk(ChainStep(c, e))
  {
  }

  ghost predicate ChainsOk(s: State) {
    forall id :: ChainOk(ChainOf(s, id))
  }

  lemma {:induction false} RunKeepsChains(s: State, es: seq<Event>)
    requires ChainsOk(s)
    ensures ChainsOk(Run(s, es))
    decreases |es|
  {
    if es != [] {
      var e := es[0];
      ChainStepKeepsOk(ChainOf(s, e.id), e);
      forall id
        ensures ChainOk(ChainOf(Step(s, e), id))
      {
        assert ChainOf(Step(s, e), id) == ChainOf(s, id) || (id == e.id && !e.Claim?);
        assert ChainOk(ChainOf(s, id));
      }
      RunKeepsChains(Step(s, e), es[1..]);
    }
  }

  lemma NoChainsOk(s: State)
    requires s.chains == map[]
    ensures ChainsOk(s)
  {
  }

  /**
   In every run the deliveries of one message run one at a time and in the order they were enqueued. Its entry is
   the last of them for as long as any is unfinished, and goes exactly when the chain has drained: once the last
   one's finally() has run, and not before.
   */
  lemma DeliveriesRunInOrder(es: seq<Event>, id: Id)
    ensures var c := ChainOf(Run(Boot(), es), id);
            && (forall k | 0 <= k < |c.works| && c.works[k].phase.Running? ::
                  (forall j | 0 <= j < k :: IsOver(c.works[j].phase)) &&
                  (forall j | k < j < |c.works| :: c.works[j].phase.Waiting?))
            && (forall k | 0 <= k < |c.works| && !IsOver(c.works[k].phase) :: c.entry == Some(|c.works| - 1))
            && (c.entry.None? <==> c.works == [] || c.works[|c.works| - 1].phase.Drained?)
            && (c.entry.None? ==> forall k | 0 <= k < |c.works| :: IsOver(c.works[k].phase))
  {
    NoChainsOk(Boot());
    RunKeepsChains(Boot(), es);
    var c := ChainOf(Run(Boot(), es), id);
    assert ChainOk(c);
  }

  /**
   Each event on its own: an enqueued work waits for what the entry held and becomes the entry; a waiting one starts
   exactly when that is over; a running one settles; a settled one's finally() takes the entry out if it still is
   its own.
   */
  lemma ChainMovesSo(s: State, id: Id, k: nat)
    requires ChainsOk(s)
    ensures var c := ChainOf(s, id);
            && ChainOf(Step(s, Enqueue(id)), id) == Chain(c.works + [Work(c.entry, Waiting)], Some(|c.works|))
            && ChainOf(Step(s, Start(id, k)), id) ==
               (if k < |c.works| && c.works[k].phase.Waiting? && (forall j | 0 <= j < k :: IsOver(c.works[j].phase))
                then c.(works := c.works[k := Work(c.works[k].previous, Running)]) else c)
            && ChainOf(Step(s, Settle(id, k)), id) ==
               (if k < |c.works| && c.works[k].phase.Running?
                then c.(works := c.works[k := Work(c.works[k].previous, Settled)]) else c)
            && ChainOf(Step(s, Drain(id, k)), id) ==
               (if k < |c.works| && c.works[k].phase.Settled?
                then Chain(c.works[k := Work(c.works[k].previous, Drained)],
                           if c.entry == Some(k) then None else c.entry)
                else c)
  {
    var c := ChainOf(s, id);
    assert ChainOk(c);
    if k < |c.works| && c.works[k].phase.Waiting? {
      StartsIff(c, k);
    }
  }

  /** What happens to one message's deliveries leaves the other messages' and every position alone, and so do claims. */
  lemma OtherChainsAreLeftAlone(s: State, e: Event, other: Id)
    ensures e.Claim? || e.id != other ==> ChainOf(Step(s, e), other) == ChainOf(s, other)
    ensures !e.Claim? ==> Step(s, e).memory == s.memory
  {
    if !e.Claim? {
      assert Step(s, e).chains == s.chains[e.id := ChainStep(ChainOf(s, e.id), e)];
    }
  }

  lemma StartsIff(c: Chain, k: nat)
    requires ChainOk(c) && k < |c.works| && c.works[k].phase.Waiting?
    ensures CanStart(c, k) <==> forall j | 0 <= j < k :: IsOver(c.works[j].phase)
  {
    if c.works[k].previous.Some? && CanStart(c, k) {
      assert IsOver(c.works[k - 1].phase) && !c.works[k - 1].phase.Waiting?;
      assert AllOverBefore(c, k - 1);
    }
  }

  /** A delivery never gets stuck: of the works not yet over, the first is running or can be started. */
  lemma FirstUnfinishedCanRun(c: Chain, k: nat)
    requires ChainOk(c) && k < |c.works| && !IsOver(c.works[k].phase)
    requires forall j | 0 <= j < k :: IsOver(c.works[j].phase)
    ensures c.works[k].phase.Running? || CanStart(c, k)
  {
    if c.works[k].phase.Waiting? {
      StartsIff(c, k);
    }
  }

  // ---- a message under delivery keeps its position ----

  predicate UnderDelivery(s: State, id: Id) {
    exists k | 0 <= k < |ChainOf(s, id).works| :: !IsOver(ChainOf(s, id).works[k].phase)
  }

  lemma UnderDeliveryIsProtected(s: State, id: Id)
    requires ChainsOk(s) && UnderDelivery(s, id)
    ensures id in Protected(s)
  {
  }

  /** One claim: no message with an unfinished delivery loses the position its retries are checked against. */
  lemma DeliveryKeepsPosition(s: State, id: Id, position: Position, other: Id)
    requires MemoryOk(s.memory) && ChainsOk(s) && UnderDelivery(s, other) && other in s.memory.at
    ensures other in Step(s, Claim(id, position)).memory.at
    ensures other != id ==> Step(s, Claim(id, position)).memory.at[other] == s.memory.at[other]
  {
  }

  // Its deliveries are never all finished in the course of the run.
  predicate DeliveredThroughout(s: State, es: seq<Event>, id: Id)
    decreases |es|
  {
    es == [] || (UnderDelivery(s, id) && DeliveredThroughout(Step(s, es[0]), es[1..], id))
  }

  /** Whole runs: as long as something of the message is being delivered, its position is not evicted. */
  lemma {:induction false} UnderDeliveryIsKept(s: State, es: seq<Event>, id: Id)
    requires MemoryOk(s.memory) && ChainsOk(s) && DeliveredThroughout(s, es, id)
    ensures Kept(s, es, id)
    decreases |es|
  {
    if es != [] {
      var e := es[0];
      UnderDeliveryIsProtected(s, id);
      if e.Claim? {
        ClaimKeepsMemory(s.memory, e.id, e.position, Protected(s));
        if !Superseded(s.memory, e.id, e.position) {
          ClaimIsBounded(s.memory, e.id, e.position, Protected(s));
        }
      }
      assert Run(s, [e]) == Run(Step(s, e), [e][1..]) == Step(s, e) by { assert [e][1..] == []; }
      RunKeepsChains(s, [e]);
      UnderDeliveryIsKept(Step(s, e), es[1..], id);
    }
  }

  // ---- the connection's own members ----

  // The eviction loop's own account: what it has passed and kept, and what it has still to look at.
  function Evict(kept: seq<Id>, rest: seq<Id>, protected: set<Id>): seq<Id>
    decreases |rest|
  {
    if |kept| + |rest| <= EDIT_POSITION_MEMORY || rest == [] then kept + rest
    else if rest[0] in protected then Evict(kept + [rest[0]], rest[1..], protected)
    else Evict(kept, rest[1..], protected)
  }

  lemma {:induction false} EvictIsSurvivors(kept: seq<Id>, rest: seq<Id>, protected: set<Id>)
    ensures Evict(kept, rest, protected) == kept + Survivors(rest, protected, Over(|kept| + |rest|))
    decreases |rest|
  {
    if |kept| + |rest| > EDIT_POSITION_MEMORY && rest != [] {
      if rest[0] in protected {
        EvictIsSurvivors(kept + [rest[0]], rest[1..], protected);
        Regroup(kept, rest[0], Survivors(rest[1..], protected, Over(|kept| + |rest|)));
      } else {
        EvictIsSurvivors(kept, rest[1..], protected);
      }
    }
  }

  lemma Regroup(kept: seq<Id>, candidate: Id, rest: seq<Id>)
    ensures kept + ([candidate] + rest) == (kept + [candidate]) + rest
  {
  }

  lemma DropKey(kept: seq<Id>, candidate: Id, rest: seq<Id>, full: map<Id, Position>)
    requires Distinct(kept + ([candidate] + rest))
    ensures Distinct(kept + rest)
    ensures Restrict(full, kept + rest) == Restrict(full, kept + ([candidate] + rest)) - {candidate}
  {
    var all, without := kept + ([candidate] + rest), kept + rest;
    assert all[|kept|] == candidate;
    assert forall n | 0 <= n < |without| :: without[n] == all[if n < |kept| then n else n + 1];
    assert candidate !in without;
    assert forall k :: k in all <==> k == candidate || k in without;
  }

  // The loop's invariant: `kept` it has passed and left in, `rest` is still ahead.
  ghost predicate Evicting(kept: seq<Id>, rest: seq<Id>, m: Memory, full: Memory, protected: set<Id>) {
    && m.keys == kept + rest && Distinct(m.keys) && m.at == Restrict(full.at, m.keys)
    && Evict([], full.keys, protected) == Evict(kept, rest, protected)
  }

  lemma EvictTurn(kept: seq<Id>, rest: seq<Id>, m: Memory, full: Memory, protected: set<Id>)
    requires Evicting(kept, rest, m, full, protected) && rest != [] && |m.keys| > EDIT_POSITION_MEMORY
    ensures rest[0] in protected ==> Evicting(kept + [rest[0]], rest[1..], m, full, protected)
    ensures rest[0] !in protected ==>
              Evicting(kept, rest[1..], Memory(kept + rest[1..], m.at - {rest[0]}), full, protected)
  {
    assert rest == [rest[0]] + rest[1..];
    Regroup(kept, rest[0], rest[1..]);
    DropKey(kept, rest[0], rest[1..], full.at);
  }

  class EditGuard {
    var keys: seq<Id>
    var at: map<Id, Position>
    var chains: map<Id, Chain>

    function Now(): State
      reads this
    {
      State(Memory(keys, at), chains)
    }

    constructor ()
      ensures Now() == Boot()
    {
      keys, at, chains := [], map[], map[];
    }

    method EditSuperseded(id: Id, position: Position) returns (r: bool)
      ensures r <==> id in at && Before(position, at[id])
    {
      if id !in at {
        return false;
      }
      var applied := at[id];
      if position.at != applied.at {
        return position.at < applied.at;
      }
      if position.eventSeq != applied.eventSeq {
        return position.eventSeq < applied.eventSeq;
      }
      r := position.rank < applied.rank;
    }

    method ClaimEditPosition(id: Id, position: Position) returns (accepted: bool)
      requires MemoryOk(Memory(keys, at))
      modifies this`keys, this`at
      ensures accepted <==> !Superseded(old(Now()).memory, id, position)
      ensures Now() == Step(old(Now()), Claim(id, position)) && MemoryOk(Memory(keys, at))
    {
      ClaimKeepsMemory(Memory(keys, at), id, position, InDelivery(chains));
      WithoutIsDistinct(keys, id);
      var superseded := EditSuperseded(id, position);
      if superseded {
        return false;
      }
      keys := Without(keys, id) + [id];
      at := at[id := position];
      EvictOldest();
      accepted := true;
    }

    method EvictOldest()
      requires MemoryOk(Memory(keys, at))
      modifies this`keys, this`at
      ensures keys == Survivors(old(keys), InDelivery(chains), Over(|old(keys)|))
      ensures at == Restrict(old(at), keys)
    {
      // The iterator over the map's keys: those it has passed and left in, and those still ahead.
      var kept, rest := [], keys;
      ghost var full, protected := Memory(keys, at), InDelivery(chains);
      EvictIsSurvivors(kept, rest, protected);
      while rest != [] && |keys| > EDIT_POSITION_MEMORY
        invariant Evicting(kept, rest, Memory(keys, at), full, protected)
      {
        var candidate, tail := rest[0], rest[1..];
        EvictTurn(kept, rest, Memory(keys, at), full, protected);
        if candidate in chains && chains[candidate].entry.Some? {
          kept := kept + [candidate];
        } else {
          keys := kept + tail;
          at := at - {candidate};
        }
        rest := tail;
      }
    }

    method EnqueueEditDelivery(id: Id)
      modifies this`chains
      ensures Now() == Step(old(Now()), Enqueue(id))
    {
      var chain := if id in chains then chains[id] else EmptyChain();
      var next := |chain.works|;
      chain := chain.(works := chain.works + [Work(chain.entry, Waiting)]);
      chains := chains[id := chain.(entry := Some(next))];
    }

    // next.finally(): only if nothing queued behind in the meantime.
    method OnDrained(id: Id, k: nat)
      requires id in chains && k < |chains[id].works| && chains[id].works[k].phase.Settled?
      modifies this`chains
      ensures Now() == Step(old(Now()), Drain(id, k))
    {
      chains := chains[id := SetPhase(chains[id], k, Drained)];
      if chains[id].entry == Some(k) {
        chains := chains[id := chains[id].(entry := None)];
      }
    }
  }
}
