/**
 Cycling the Noise candidates of an imported session: read the cursor, read the creds, compare-and-swap.
 Any number of advances may be between those commands while creds are saved, sessions seeded or cleared and
 the lease moves. Creds are a noise key and all the rest; their JSON text stands for the value itself.
 */
module ImportCandidates {
  import opened Wrappers

  type Instance = string
  type OpId = nat
  type Key = string

  datatype Creds = Creds(noiseKey: Key, rest: string)
  datatype Cursor = Cursor(candidates: seq<Key>, index: nat)

  datatype Phase = ReadingCursor | ReadingCreds(cursor: Cursor)
                 | Swapping(cursor: Cursor, expected: Creds) | Ended(advanced: bool)
  datatype Advance = Advance(writer: Instance, phase: Phase)

  datatype State = State(
    owner: Option<Instance>,      // whom the lease cell names
    creds: Option<Creds>,
    cursor: Option<Cursor>,
    saved: Option<Creds>,         // what the last landed save or seed wrote
    ops: map<OpId, Advance>
  )

  datatype Event =
    | SetLease(owner: Option<Instance>)
    | SaveCreds(writer: Instance, creds: Creds)
    | Seed(writer: Instance, creds: Creds, candidates: seq<Key>, index: nat)
    | ClearCandidates(writer: Instance)
    | ClearAll(writer: Instance)
    | Begin(op: OpId, writer: Instance)
    | Read(op: OpId)              // the next command of an advance that only reads
    | Swap(op: OpId)

  predicate Admits(s: State, writer: Instance) {
    s.owner.Some? ==> s.owner.value == writer
  }

  predicate HasNext(c: Cursor) {
    c.index + 1 < |c.candidates|
  }

  function Next(c: Cursor): Cursor {
    c.(index := c.index + 1)
  }

  function Goto(s: State, op: OpId, phase: Phase): State
    requires op in s.ops
  {
    s.(ops := s.ops[op := s.ops[op].(phase := phase)])
  }

  function ReadStep(s: State, op: OpId): State
    requires op in s.ops
  {
    match s.ops[op].phase
    case ReadingCursor =>
      if s.cursor.Some? && HasNext(s.cursor.value)
      then Goto(s, op, ReadingCreds(s.cursor.value)) else Goto(s, op, Ended(false))
    case ReadingCreds(cursor) =>
      if s.creds.Some? then Goto(s, op, Swapping(cursor, s.creds.value)) else Goto(s, op, Ended(false))
    case _ => s
  }

  predicate Lands(s: State, e: Event) {
    && e.Swap? && e.op in s.ops && s.ops[e.op].phase.Swapping?
    && Admits(s, s.ops[e.op].writer) && s.creds == Some(s.ops[e.op].phase.expected)
    && HasNext(s.ops[e.op].phase.cursor)
  }

  // A creds mismatch sends the advance back to its first read; after three of them it simply ends.
  function SwapStep(s: State, op: OpId): State
    requires op in s.ops && s.ops[op].phase.Swapping? && HasNext(s.ops[op].phase.cursor)
  {
    var Swapping(cursor, expected) := s.ops[op].phase;
    if !Admits(s, s.ops[op].writer) then Goto(s, op, Ended(false))
    else if s.creds != Some(expected) then Goto(s, op, ReadingCursor)
    else
      Goto(s.(creds := Some(expected.(noiseKey := cursor.candidates[cursor.index + 1])), cursor := Some(Next(cursor))),
           op, Ended(true))
  }

  function Step(s: State, e: Event): State {
    match e
    case SetLease(owner) => s.(owner := owner)
    case SaveCreds(writer, creds) => if Admits(s, writer) then s.(creds := Some(creds), saved := Some(creds)) else s
    case Seed(writer, creds, candidates, index) =>
      if Admits(s, writer)
      then s.(creds := Some(creds), saved := Some(creds), cursor := Some(Cursor(candidates, index))) else s
    case ClearCandidates(writer) => if Admits(s, writer) then s.(cursor := None) else s
    case ClearAll(writer) => if Admits(s, writer) then s.(creds := None, saved := None, cursor := None) else s
    case Begin(op, writer) => s.(ops := s.ops[op := Advance(writer, ReadingCursor)])
    case Read(op) => if op in s.ops then ReadStep(s, op) else s
    case Swap(op) =>
      if op in s.ops && s.ops[op].phase.Swapping? && HasNext(s.ops[op].phase.cursor) then SwapStep(s, op) else s
  }

  function Run(s: State, es: seq<Event>): State
    decreases |es|
  {
    if es == [] then s else Run(Step(s, es[0]), es[1..])
  }

  /**
   The writes around the advances: each lands exactly when nobody owns the lease or its writer does, and then does
   what it is for; fenced off, it does nothing.
   */
  lemma FencedWritesLandIff(s: State, writer: Instance, creds: Creds, candidates: seq<Key>, index: nat)
    ensures var free := s.owner.None? || s.owner.value == writer;
            && Step(s, SaveCreds(writer, creds)) == (if free then s.(creds := Some(creds), saved := Some(creds)) else s)
            && Step(s, Seed(writer, creds, candidates, index)) ==
               (if free then s.(creds := Some(creds), saved := Some(creds), cursor := Some(Cursor(candidates, index)))
                else s)
            && Step(s, ClearCandidates(writer)) == (if free then s.(cursor := None) else s)
            && Step(s, ClearAll(writer)) == (if free then s.(creds := None, saved := None, cursor := None) else s)
    ensures forall owner :: Step(s, SetLease(owner)) == s.(owner := owner)
  {
  }

  /** And an advance's swap commits exactly on a free or own lease and unchanged creds, retrying on changed ones. */
  lemma CommitsIff(s: State, op: OpId)
    requires op in s.ops && s.ops[op].phase.Swapping? && HasNext(s.ops[op].phase.cursor)
    ensures var s', o := Step(s, Swap(op)), s.ops[op];
            var free := s.owner.None? || s.owner.value == o.writer;
            && op in s'.ops
            && s'.ops[op].phase == (if !free then Ended(false)
                                    else if s.creds != Some(o.phase.expected) then ReadingCursor else Ended(true))
            && (s'.ops[op].phase != Ended(true) ==> s'.creds == s.creds && s'.cursor == s.cursor)
  {
  }

  // ---- no save is lost ----

  // Apart from its noise key, the stored creds are the last landed save's.
  ghost predicate SavesKept(s: State) {
    match (s.creds, s.saved)
    case (Some(c), Some(v)) => c.rest == v.rest
    case (None, None) => true
    case _ => false
  }

  /**
   Over every run, whatever advances overlap it, the last save to land is what the hash still holds but for
   its noise key; and each advance that commits replaces exactly that key of the creds present at the commit.
   */
  lemma {:induction false} NoSaveIsLost(s: State, es: seq<Event>)
    requires SavesKept(s)
    ensures SavesKept(Run(s, es))
    decreases |es|
  {
    if es != [] {
      NoSaveIsLost(Step(s, es[0]), es[1..]);
    }
  }

  lemma CommitChangesOnlyTheKey(s: State, e: Event)
    requires Lands(s, e)
    ensures var read := s.ops[e.op].phase.cursor;
            && Step(s, e).creds == Some(s.creds.value.(noiseKey := read.candidates[read.index + 1]))
            && Step(s, e).cursor == Some(Next(read)) && Step(s, e).saved == s.saved
  {
  }

  // ---- the cursor ----

  // Where the cursor is; an absent one stands below every index.
  function At(c: Option<Cursor>): int {
    if c.Some? then c.value.index else -1
  }

  /**
   One commit moves the stored cursor forward exactly when what is stored by then is not beyond the cursor it
   had read: the swap compares the creds, not the cursor.
   */
  lemma CommitIncreasesIff(s: State, e: Event)
    requires Lands(s, e)
    ensures At(Step(s, e).cursor) > At(s.cursor) <==> At(s.cursor) <= s.ops[e.op].phase.cursor.index
  {
  }

  // Each commit of the run still finds the cursor it had read: no other advance or seed committed in between.
  predicate CursorsFresh(s: State, es: seq<Event>)
    decreases |es|
  {
    es == [] ||
    ((Lands(s, es[0]) ==> s.cursor == Some(s.ops[es[0].op].phase.cursor)) && CursorsFresh(Step(s, es[0]), es[1..]))
  }

  // Nothing but advances moves the cursor.
  predicate OnlyAdvances(es: seq<Event>) {
    forall e | e in es :: !e.Seed? && !e.ClearCandidates? && !e.ClearAll?
  }

  function Commits(s: State, es: seq<Event>): nat
    decreases |es|
  {
    if es == [] then 0 else (if Lands(s, es[0]) then 1 else 0) + Commits(Step(s, es[0]), es[1..])
  }

  /**
   Then every commit takes the cursor exactly one further, so it never repeats a candidate and at most
   (candidates - 1 - start) advances succeed, by any number of callers.
   */
  lemma {:induction false} FreshCommitsCount(s: State, es: seq<Event>)
    requires s.cursor.Some? && CursorsFresh(s, es) && OnlyAdvances(es)
    ensures var c, c' := s.cursor.value, Run(s, es).cursor;
            && c'.Some? && c'.value.candidates == c.candidates && c'.value.index == c.index + Commits(s, es)
            && Commits(s, es) <= if HasNext(c) then |c.candidates| - 1 - c.index else 0
    decreases |es|
  {
    if es != [] {
      FreshCommitsCount(Step(s, es[0]), es[1..]);
    }
  }

  // One advance left to itself.
  function Solo(op: OpId, writer: Instance): seq<Event> {
    [Begin(op, writer), Read(op), Read(op), Swap(op)]
  }

  lemma RunFour(s: State, a: Event, b: Event, c: Event, d: Event, rest: seq<Event>)
    ensures Run(s, [a, b, c, d] + rest) == Run(Step(Step(Step(Step(s, a), b), c), d), rest)
  {
    var es := [a, b, c, d] + rest;
    assert es[1..] == [b, c, d] + rest;
    assert ([b, c, d] + rest)[1..] == [c, d] + rest;
    assert ([c, d] + rest)[1..] == [d] + rest;
    assert ([d] + rest)[1..] == rest;
    var s1 := Step(s, a);
    var s2 := Step(s1, b);
    var s3 := Step(s2, c);
    assert Run(s, es) == Run(s1, [b, c, d] + rest);
    assert Run(s1, [b, c, d] + rest) == Run(s2, [c, d] + rest);
    assert Run(s2, [c, d] + rest) == Run(s3, [d] + rest);
    assert Run(s3, [d] + rest) == Run(Step(s3, d), rest);
  }

  lemma SoloAdvances(s: State, op: OpId, writer: Instance)
    requires Admits(s, writer) && s.creds.Some? && s.cursor.Some? && HasNext(s.cursor.value)
    ensures var next := Next(s.cursor.value);
            Run(s, Solo(op, writer)) ==
            s.(creds := Some(s.creds.value.(noiseKey := next.candidates[next.index])), cursor := Some(next),
               ops := s.ops[op := Advance(writer, Ended(true))])
  {
    var cursor, creds := s.cursor.value, s.creds.value;
    RunFour(s, Begin(op, writer), Read(op), Read(op), Swap(op), []);
    assert Solo(op, writer) + [] == Solo(op, writer);
    var s1 := Step(s, Begin(op, writer));
    var s2 := Step(s1, Read(op));
    assert s2.ops[op] == Advance(writer, ReadingCreds(cursor));
    var s3 := Step(s2, Read(op));
    assert s3.ops[op] == Advance(writer, Swapping(cursor, creds));
    var s4 := Step(s3, Swap(op));
    assert s4.ops == s.ops[op := Advance(writer, Ended(true))];
  }

  /**
   Overlapping advances can move the cursor back even though every candidate differs: one that read the
   cursor first and the creds last has its swap accepted after two others finished.
   */
  lemma CursorCanRegress(s: State, me: Instance, a: Key, b: Key, c: Key)
    requires Admits(s, me) && s.creds.Some? && s.cursor == Some(Cursor([a, b, c], 0)) && a != b && b != c && a != c
    ensures var late := Run(Step(Step(s, Begin(0, me)), Read(0)), Solo(1, me) + Solo(2, me));
            var last := Step(late, Read(0));
            && late.cursor == Some(Cursor([a, b, c], 2)) && late.creds == Some(s.creds.value.(noiseKey := c))
            && Lands(last, Swap(0))
            && Step(last, Swap(0)).cursor == Some(Cursor([a, b, c], 1))
            && Step(last, Swap(0)).creds == Some(s.creds.value.(noiseKey := b))
  {
    var s2 := Step(Step(s, Begin(0, me)), Read(0));
    assert s2.ops[0] == Advance(me, ReadingCreds(Cursor([a, b, c], 0)));
    RunFour(s2, Begin(1, me), Read(1), Read(1), Swap(1), Solo(2, me));
    RunFour(s2, Begin(1, me), Read(1), Read(1), Swap(1), []);
    assert Solo(1, me) + [] == Solo(1, me);
    SoloAdvances(s2, 1, me);
    var s3 := Run(s2, Solo(1, me));
    SoloAdvances(s3, 2, me);
    var late := Run(s3, Solo(2, me));
    assert late.ops[0] == Advance(me, ReadingCreds(Cursor([a, b, c], 0)));
    assert late == Run(s2, Solo(1, me) + Solo(2, me));
    var s5 := Step(late, Read(0));
    assert s5.ops[0] == Advance(me, Swapping(Cursor([a, b, c], 0), late.creds.value));
  }

  // ---- the loop ----

  // The fields of one phone's hash this path touches, and the lease that fences it.
  datatype Stored = Stored(owner: Option<Instance>, creds: Option<Creds>, cursor: Option<Cursor>)

  const ADVANCE_ATTEMPTS := 3

  // What one attempt reads, and the hash and lease its swap meets.
  datatype Attempt = Attempt(cursor: Option<Cursor>, creds: Option<Creds>, met: Stored)

  predicate Prepared(a: Attempt) {
    a.cursor.Some? && HasNext(a.cursor.value) && a.creds.Some?
  }

  predicate Unfenced(me: Instance, a: Attempt) {
    a.met.owner.Some? ==> a.met.owner.value == me
  }

  // How many attempts in a row lose the race for the creds.
  function Contended(me: Instance, attempts: seq<Attempt>): (k: nat)
    ensures k <= |attempts|
    ensures forall j | 0 <= j < k ::
              Prepared(attempts[j]) && Unfenced(me, attempts[j]) && attempts[j].met.creds != attempts[j].creds
    ensures k < |attempts| ==>
              !(Prepared(attempts[k]) && Unfenced(me, attempts[k]) && attempts[k].met.creds != attempts[k].creds)
  {
    if attempts != [] && Prepared(attempts[0]) && Unfenced(me, attempts[0])
       && attempts[0].met.creds != attempts[0].creds
    then 1 + Contended(me, attempts[1..]) else 0
  }

  class AuthHash {
    var owner: Option<Instance>
    var creds: Option<Creds>
    var cursor: Option<Cursor>

    constructor ()
      ensures Now() == Stored(None, None, None)
    {
      owner, creds, cursor := None, None, None;
    }

    function Now(): Stored
      reads this
    {
      Stored(owner, creds, cursor)
    }

    method CompareAndSwap(me: Instance, expected: Creds, next: Creds, nextCursor: Cursor) returns (result: nat)
      modifies this
      ensures result == 0 <==> old(owner.Some? && owner.value != me)
      ensures result == 1 <==> old((owner.Some? ==> owner.value == me) && creds == Some(expected))
      ensures result <= 2
      ensures Now() == if result == 1 then old(Now()).(creds := Some(next), cursor := Some(nextCursor)) else old(Now())
    {
      if owner.Some? && owner.value != me {
        return 0;
      }
      if creds != Some(expected) {
        return 2;
      }
      creds, cursor := Some(next), Some(nextCursor);
      result := 1;
    }

    /**
     advanceImportCandidate, with the hash free to change at every await. It succeeds exactly when some attempt
     commits and all before it only lost the race for the creds; and then it has written, over the hash as it
     stood at that swap, the creds with the noise key replaced and the cursor one further. Otherwise nothing of
     this call's reaches the hash.
     */
    method AdvanceImportCandidate(me: Instance, attempts: seq<Attempt>) returns (advanced: bool)
      requires |attempts| == 3
      modifies this
      ensures var k := Contended(me, attempts);
              advanced <==> k < 3 && Prepared(attempts[k]) && Unfenced(me, attempts[k])
                            && attempts[k].met.creds == attempts[k].creds
      ensures advanced ==>
                var a := attempts[Contended(me, attempts)];
                var next := Next(a.cursor.value);
                && a.met.creds.Some?
                && Now() == a.met.(creds := Some(a.met.creds.value.(noiseKey := next.candidates[next.index])),
                                   cursor := Some(next))
      ensures !advanced ==> Now() == old(Now()) || exists k | 0 <= k < ADVANCE_ATTEMPTS :: Now() == attempts[k].met
    {
      for attempt := 0 to ADVANCE_ATTEMPTS
        invariant attempt <= Contended(me, attempts)
        invariant Now() == old(Now()) || exists k | 0 <= k < ADVANCE_ATTEMPTS :: Now() == attempts[k].met
      {
        var a := attempts[attempt];
        if a.cursor.None? {
          return false;
        }
        var state := a.cursor.value;
        if state.index + 1 >= |state.candidates| {
          return false;
        }
        if a.creds.None? {
          return false;
        }
        var next := a.creds.value.(noiseKey := state.candidates[state.index + 1]);
        owner, creds, cursor := a.met.owner, a.met.creds, a.met.cursor;
        assert Now() == a.met;
        var result := CompareAndSwap(me, a.creds.value, next, Next(state));
        if result == 1 {
          return true;
        }
        if result == 0 {
          return false;
        }
      }
      advanced := false;
    }
  }
}
