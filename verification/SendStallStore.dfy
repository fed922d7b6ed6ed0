/**
 The restart backoff kept per phone: a strike counter in one Redis key, bumped by a bounded compare-and-set
 loop and taken back by a compare-and-set (or compare-and-delete) on the exact value written. Any number of
 owners may be inside recordRestart or restoreState at once; their clocks need not agree.
 */
module SendStallStore {
  import opened Wrappers

  const BASE_MS := 5 * 60 * 1000
  const MAX_MS := 60 * 60 * 1000
  const TTL_MS := 24 * 60 * 60 * 1000
  const MAX_EXPONENT := 25
  const CAS_ATTEMPTS := 3

  type OpId = nat

  datatype StallState = StallState(restarts: nat, nextRestartAllowedAt: int)

  // What the key's text may be: a state, or something that does not parse.
  datatype Entry = Parsed(state: StallState) | Corrupt(text: string)
  datatype Cell = Cell(entry: Entry, deadline: int)

  function Pow2(n: nat): (p: nat)
    ensures p > 0
  {
    if n == 0 then 1 else 2 * Pow2(n - 1)
  }

  function Min(a: int, b: int): int { if a <= b then a else b }
  function Max(a: int, b: int): int { if a >= b then a else b }

  function BackoffMs(restarts: nat): int {
    Min(BASE_MS * Pow2(Min(Max(restarts - 1, 0), MAX_EXPONENT)), MAX_MS)
  }

  function ParseState(raw: Option<Entry>): Option<StallState> {
    if raw.Some? && raw.value.Parsed? then Some(raw.value.state) else None
  }

  function Restarts(previous: Option<StallState>): nat {
    if previous.Some? then previous.value.restarts else 0
  }

  function Struck(previous: Option<StallState>, clock: int): StallState {
    StallState(Restarts(previous) + 1, clock + BackoffMs(Restarts(previous) + 1))
  }

  lemma {:induction false} Pow2Grows(a: nat, b: nat)
    requires a <= b
    ensures Pow2(a) <= Pow2(b)
    decreases b
  {
    if a < b {
      Pow2Grows(a, b - 1);
    }
  }

  lemma BackoffAtTheCap(restarts: nat)
    requires restarts >= 5
    ensures BackoffMs(restarts) == MAX_MS
  {
    Pow2Grows(4, Min(restarts - 1, MAX_EXPONENT));
    assert Pow2(2) == 4 && Pow2(4) == 16;
  }

  lemma BackoffBelowTheCap()
    ensures BackoffMs(0) == BackoffMs(1) == BASE_MS && BackoffMs(2) == 2 * BASE_MS
    ensures BackoffMs(3) == 4 * BASE_MS && BackoffMs(4) == 8 * BASE_MS
  {
  }

  /** The backoff doubles with every strike until the cap takes over, and the exponent clamp is never felt. */
  lemma BackoffDoublesToTheCap(restarts: nat)
    requires restarts >= 1
    ensures BackoffMs(restarts + 1) == Min(2 * BackoffMs(restarts), MAX_MS)
    ensures BASE_MS <= BackoffMs(restarts) <= MAX_MS
    ensures BackoffMs(restarts) == MAX_MS <==> restarts >= 5
  {
    BackoffBelowTheCap();
    if restarts >= 4 {
      BackoffAtTheCap(restarts + 1);
    }
    if restarts >= 5 {
      BackoffAtTheCap(restarts);
    }
  }

  /**
   A strike is one more than it found, and the next restart is then allowed after five minutes doubled for every
   strike before it, but at most an hour.
   */
  lemma StruckBacksOff(previous: Option<StallState>, clock: int)
    ensures var struck := Struck(previous, clock);
            var before := if previous.Some? then previous.value.restarts else 0;
            && struck.restarts == before + 1
            && struck.nextRestartAllowedAt - clock ==
               if before >= 4 then 3600 * 1000 else 300 * 1000 * Pow2(before)
  {
    BackoffBelowTheCap();
    if Restarts(previous) >= 4 {
      BackoffAtTheCap(Restarts(previous) + 1);
    } else {
      assert Pow2(1) == 2 && Pow2(2) == 4 && Pow2(3) == 8;
    }
  }

  // canRestart, on what the key reads as.
  predicate MayRestart(raw: Option<Entry>, now: int) {
    ParseState(raw).None? || ParseState(raw).value.nextRestartAllowedAt <= now
  }

  /** The first restart is always allowed; the next, as long as the strike stands, exactly when its backoff is over. */
  lemma RestartsAreSpaced(previous: Option<StallState>, clock: int, now: int)
    ensures MayRestart(None, now)
    ensures var before := if previous.Some? then previous.value.restarts else 0;
            MayRestart(Some(Parsed(Struck(previous, clock))), now) <==>
            now >= clock + if before >= 4 then 3600 * 1000 else 300 * 1000 * Pow2(before)
  {
    StruckBacksOff(previous, clock);
  }

  // ---- the key under any interleaving ----

  datatype Phase =
    | Reading(attempt: nat)
    | ReadingTtl(attempt: nat, raw: Option<Entry>)
    | Writing(attempt: nat, raw: Option<Entry>, previousTtlMs: Option<int>, wrote: StallState)
    | Recorded(previous: Option<StallState>, previousTtlMs: Option<int>, wrote: StallState)
    | Failed          // lost every attempt
    | Restored        // its restoreState has run, whatever that did

  // A strike that was applied, and whose strike it was applied on.
  datatype Landed = Landed(wrote: StallState, over: Option<OpId>)

  datatype State = State(
    now: int,
    cell: Option<Cell>,
    strikes: nat,      // applied since the key was last cleared or expired
    rollbacks: nat,    // likewise
    ops: map<OpId, Phase>,
    standing: Option<OpId>,     // whose strike the key holds
    landed: map<OpId, Landed>   // every strike ever applied
  )

  datatype Event =
    | Tick(ms: nat)
    | Record(op: OpId)
    | Get(op: OpId, clock: int)
    | PTtl(op: OpId, ok: bool, clock: int)
    | Cas(op: OpId)
    | Restore(op: OpId)
    | ClearSendStall

  function Text(cell: Option<Cell>): Option<Entry> {
    if cell.Some? then Some(cell.value.entry) else None
  }

  function Wipe(s: State): State {
    s.(cell := None, strikes := 0, rollbacks := 0, standing := None)
  }

  function Goto(s: State, op: OpId, phase: Phase): State {
    s.(ops := s.ops[op := phase])
  }

  function TickStep(s: State, ms: nat): State {
    var s1 := s.(now := s.now + ms);
    if s.cell.Some? && s.cell.value.deadline <= s1.now then Wipe(s1) else s1
  }

  function Ttl(s: State): Option<int> {
    if s.cell.Some? && s.cell.value.deadline > s.now then Some(s.cell.value.deadline - s.now) else None
  }

  // Only a value that parsed has its expiry looked up.
  function GetStep(s: State, op: OpId, attempt: nat, clock: int): State {
    var raw := Text(s.cell);
    if ParseState(raw).Some? then Goto(s, op, ReadingTtl(attempt, raw))
    else Goto(s, op, Writing(attempt, raw, None, Struck(None, clock)))
  }

  function PTtlStep(s: State, op: OpId, p: Phase, ok: bool, clock: int): State
    requires p.ReadingTtl?
  {
    Goto(s, op, Writing(p.attempt, p.raw, if ok then Ttl(s) else None, Struck(ParseState(p.raw), clock)))
  }

  function CasStep(s: State, op: OpId, p: Phase): State
    requires p.Writing?
  {
    if Text(s.cell) == p.raw then
      Goto(s.(cell := Some(Cell(Parsed(p.wrote), s.now + TTL_MS)), strikes := s.strikes + 1,
              standing := Some(op), landed := s.landed[op := Landed(p.wrote, s.standing)]),
           op, Recorded(ParseState(p.raw), p.previousTtlMs, p.wrote))
    else if p.attempt + 1 < CAS_ATTEMPTS then Goto(s, op, Reading(p.attempt + 1))
    else Goto(s, op, Failed)
  }

  predicate Undoes(s: State, p: Phase) {
    p.Recorded? && Text(s.cell) == Some(Parsed(p.wrote))
  }

  function RestoreStep(s: State, op: OpId, p: Phase): State
    requires p.Recorded?
  {
    var s1 := Goto(s, op, Restored);
    if !Undoes(s, p) then s1
    else
      var s2 := s1.(rollbacks := s.rollbacks + 1, standing := if op in s.landed then s.landed[op].over else None);
      match p.previous
      case None => s2.(cell := None)
      case Some(previous) =>
        s2.(cell := Some(Cell(Parsed(previous), s.now +
                              if p.previousTtlMs.Some? then p.previousTtlMs.value else TTL_MS)))
  }

  function Step(s: State, e: Event): State {
    match e
    case Tick(ms) => TickStep(s, ms)
    case Record(op) => if op in s.ops then s else Goto(s, op, Reading(0))
    case Get(op, clock) =>
      if op in s.ops && s.ops[op].Reading? then GetStep(s, op, s.ops[op].attempt, clock) else s
    case PTtl(op, ok, clock) =>
      if op in s.ops && s.ops[op].ReadingTtl? then PTtlStep(s, op, s.ops[op], ok, clock) else s
    case Cas(op) => if op in s.ops && s.ops[op].Writing? then CasStep(s, op, s.ops[op]) else s
    case Restore(op) => if op in s.ops && s.ops[op].Recorded? then RestoreStep(s, op, s.ops[op]) else s
    case ClearSendStall => Wipe(s)
  }

  function Run(s: State, es: seq<Event>): State
    decreases |es|
  {
    if es == [] then s else Run(Step(s, es[0]), es[1..])
  }

  function Boot(now: int): State { State(now, None, 0, 0, map[], None, map[]) }

  /** A run is its events one by one. */
  lemma {:induction false} RunsOneByOne(s: State, es: seq<Event>, e: Event)
    ensures Run(s, []) == s && Run(s, es + [e]) == Step(Run(s, es), e)
    decreases |es|
  {
    if es == [] {
      assert ([] + [e])[1..] == [];
    } else {
      assert (es + [e])[1..] == es[1..] + [e];
      RunsOneByOne(Step(s, es[0]), es[1..], e);
    }
  }

  /** The entry lapses exactly when its time has come, and a clear empties it; both begin a new history. */
  lemma LapsesIff(s: State, ms: nat)
    ensures var s' := Step(s, Tick(ms)); var gone := s.cell.Some? && s.cell.value.deadline <= s.now + ms;
            s'.now == s.now + ms && s'.cell == (if gone then None else s.cell)
            && (gone ==> s'.strikes == 0 && s'.rollbacks == 0)
    ensures var s' := Step(s, ClearSendStall); s'.cell == None && s'.strikes == 0 && s'.rollbacks == 0
  {
  }

  /**
   A compare-and-set lands exactly on the text that was read, for a day; a lost race is run again from its read,
   the third one being the last.
   */
  lemma CasLandsIff(s: State, op: OpId)
    requires op in s.ops && s.ops[op].Writing?
    ensures var s', p := Step(s, Cas(op)), s.ops[op];
            var lands := Text(s.cell) == p.raw;
            && op in s'.ops
            && s'.cell == (if lands then Some(Cell(Parsed(p.wrote), s.now + 24 * 3600 * 1000)) else s.cell)
            && s'.ops[op] == (if lands then Recorded(ParseState(p.raw), p.previousTtlMs, p.wrote)
                              else if p.attempt < 2 then Reading(p.attempt + 1) else Failed)
  {
  }

  /** What is read before it: the value, and its expiry for a value that parses, while it has one. */
  lemma ReadsSo(s: State, op: OpId, ok: bool, clock: int)
    requires op in s.ops
    ensures s.ops[op].Reading? ==>
              Step(s, Get(op, clock)).ops ==
              s.ops[op := if ParseState(Text(s.cell)).Some? then ReadingTtl(s.ops[op].attempt, Text(s.cell))
                          else Writing(s.ops[op].attempt, Text(s.cell), None, Struck(None, clock))]
    ensures s.ops[op].ReadingTtl? ==>
              var left := if ok && s.cell.Some? && s.cell.value.deadline > s.now
                          then Some(s.cell.value.deadline - s.now) else None;
              Step(s, PTtl(op, ok, clock)).ops ==
              s.ops[op := Writing(s.ops[op].attempt, s.ops[op].raw, left, Struck(ParseState(s.ops[op].raw), clock))]
  {
  }

  // ---- no strike lost, none taken twice ----

  ghost predicate PhaseOk(p: Phase) {
    match p
    case Writing(_, raw, _, wrote) => wrote.restarts == Restarts(ParseState(raw)) + 1
    case Recorded(previous, _, wrote) => wrote.restarts == Restarts(previous) + 1
    case _ => true
  }

  ghost predicate Inv(s: State) {
    && (forall op | op in s.ops :: PhaseOk(s.ops[op]))
    && Restarts(ParseState(Text(s.cell))) == s.strikes - s.rollbacks
  }

  lemma StepKeepsInv(s: State, e: Event)
    requires Inv(s)
    ensures Inv(Step(s, e))
  {
  }

  lemma {:induction false} RunKeepsInv(s: State, es: seq<Event>)
    requires Inv(s)
    ensures Inv(Run(s, es))
    decreases |es|
  {
    if es != [] {
      StepKeepsInv(s, es[0]);
      RunKeepsInv(Step(s, es[0]), es[1..]);
    }
  }

  /**
   In every run of any number of owners the stored count is the strikes applied less the strikes taken back
   since the key was last cleared or lapsed; in particular nobody ever takes back more than was struck.
   */
  lemma StrikesBalance(now: int, es: seq<Event>)
    ensures var s := Run(Boot(now), es); Restarts(ParseState(Text(s.cell))) == s.strikes - s.rollbacks
    ensures Run(Boot(now), es).rollbacks <= Run(Boot(now), es).strikes
  {
    RunKeepsInv(Boot(now), es);
  }

  // ---- whose strike a rollback removes ----

  // The key holds the standing strike, and a recorded strike remembers what it was applied on.
  ghost predicate Attributed(s: State) {
    && (s.standing.Some? ==> s.standing.value in s.landed)
    && Text(s.cell) == (if s.standing.Some? then Some(Parsed(s.landed[s.standing.value].wrote)) else None)
    && (forall op | op in s.landed :: op in s.ops && (s.ops[op].Recorded? || s.ops[op].Restored?))
    && (forall op | op in s.landed && s.landed[op].over.Some? :: s.landed[op].over.value in s.landed)
    && (forall op | op in s.ops && s.ops[op].Recorded? ::
          && op in s.landed && s.ops[op].wrote == s.landed[op].wrote
          && s.ops[op].previous == Below(s, op))
  }

  function Below(s: State, op: OpId): Option<StallState>
    requires op in s.landed && (s.landed[op].over.Some? ==> s.landed[op].over.value in s.landed)
  {
    if s.landed[op].over.Some? then Some(s.landed[s.landed[op].over.value].wrote) else None
  }

  lemma CasKeepsAuthors(s: State, op: OpId)
    requires Attributed(s)
    ensures Attributed(Step(s, Cas(op)))
  {
    if op in s.ops && s.ops[op].Writing? && Text(s.cell) == s.ops[op].raw {
      assert op !in s.landed;
      var s' := Step(s, Cas(op));
      forall o | o in s'.ops && s'.ops[o].Recorded?
        ensures o in s'.landed && s'.ops[o].wrote == s'.landed[o].wrote && s'.ops[o].previous == Below(s', o)
      {
        assert o != op ==> s'.ops[o] == s.ops[o] && s'.landed[o] == s.landed[o];
      }
    }
  }

  lemma RestoreKeepsAuthors(s: State, op: OpId)
    requires Attributed(s)
    ensures Attributed(Step(s, Restore(op)))
  {
  }

  lemma StepKeepsAuthors(s: State, e: Event)
    requires Attributed(s)
    ensures Attributed(Step(s, e))
  {
    if e.Cas? {
      CasKeepsAuthors(s, e.op);
    } else if e.Restore? {
      RestoreKeepsAuthors(s, e.op);
    }
  }

  lemma {:induction false} RunKeepsAuthors(s: State, es: seq<Event>)
    requires Attributed(s)
    ensures Attributed(Run(s, es))
    decreases |es|
  {
    if es != [] {
      StepKeepsAuthors(s, es[0]);
      RunKeepsAuthors(Step(s, es[0]), es[1..]);
    }
  }

  // Another owner's strike stands that reads the same: same count and same millisecond.
  predicate TwinStands(s: State, op: OpId) {
    && s.standing.Some? && s.standing.value != op && s.standing.value in s.landed && op in s.landed
    && s.landed[s.standing.value].wrote == s.landed[op].wrote
  }

  /**
   In every run a rollback changes the key exactly while its own strike is what the key holds, never over a
   successor's, if and only if no twin of it stands; and then it uncovers the strike it was applied on.
   */
  lemma RollbackIsExact(now: int, es: seq<Event>, op: OpId)
    requires var s := Run(Boot(now), es); op in s.ops && s.ops[op].Recorded?
    ensures var s := Run(Boot(now), es);
            var s' := Step(s, Restore(op));
            && ((Text(s'.cell) != Text(s.cell) <==> s.standing == Some(op)) <==> !TwinStands(s, op))
            && (s.standing == Some(op) ==>
                  op in s.landed && s'.standing == s.landed[op].over && s'.rollbacks == s.rollbacks + 1)
            && (s.standing != Some(op) && !TwinStands(s, op) ==> s' == Goto(s, op, Restored))
  {
    RunKeepsAuthors(Boot(now), es);
    RunKeepsInv(Boot(now), es);
    var s := Run(Boot(now), es);
    assert PhaseOk(s.ops[op]);
  }

  /** Twins do occur: two first strikes written in the same millisecond, around a clear, cannot be told apart. */
  lemma SameMillisecondConfusesRollback(s: State, a: OpId, b: OpId, clock: int)
    requires s.cell == None && a != b && a !in s.ops && b !in s.ops
    ensures var s1 := Step(Step(Step(s, Record(a)), Get(a, clock)), Cas(a));
            var s2 := Step(Step(Step(Step(s1, ClearSendStall), Record(b)), Get(b, clock)), Cas(b));
            && s2.strikes == 1 && s2.standing == Some(b) && TwinStands(s2, a)
            && Step(s2, Restore(a)).cell == None
  {
  }

  // ---- record then restore, undisturbed ----

  // The phase of `op` once its strike is in, with `d1` and `d2` passing before its PTTL and its CAS.
  lemma RecordAlone(s: State, op: OpId, clock: int, d1: nat, ok: bool, d2: nat)
    requires op !in s.ops && s.cell.Some? && s.cell.value.entry.Parsed? && s.cell.value.deadline > s.now + d1 + d2
    ensures var s1 := Step(Step(Step(s, Record(op)), Get(op, clock)), Tick(d1));
            var s2 := Step(Step(Step(s1, PTtl(op, ok, clock)), Tick(d2)), Cas(op));
            var previous := s.cell.value.entry.state;
            && s2.now == s.now + d1 + d2
            && s2.cell == Some(Cell(Parsed(Struck(Some(previous), clock)), s2.now + TTL_MS))
            && op in s2.ops
            && s2.ops[op] == Recorded(Some(previous), if ok then Some(s.cell.value.deadline - s.now - d1) else None,
                                      Struck(Some(previous), clock))
  {
    var s0 := Step(Step(s, Record(op)), Get(op, clock));
    assert s0.ops[op] == ReadingTtl(0, Some(s.cell.value.entry));
    var s1 := Step(s0, Tick(d1));
    var s2 := Step(s1, PTtl(op, ok, clock));
    assert s2.ops[op].Writing? && s2.ops[op].raw == Some(s.cell.value.entry);
    assert Step(s2, Tick(d2)).cell == s.cell;
  }

  /**
   A strike on a history, taken back with nobody else writing meanwhile: the value is exactly the one found,
   and the expiry is the one found moved on by the time since its PTTL was read; so it is the same expiry if
   and only if none passed. A PTTL that could not be read gives a full day instead.
   */
  lemma RecordThenRestore(s: State, op: OpId, clock: int, d1: nat, ok: bool, d2: nat, d3: nat)
    requires op !in s.ops && s.cell.Some? && s.cell.value.entry.Parsed? && s.cell.value.deadline > s.now + d1 + d2
    requires d3 < TTL_MS
    ensures var s1 := Step(Step(Step(s, Record(op)), Get(op, clock)), Tick(d1));
            var s2 := Step(Step(Step(s1, PTtl(op, ok, clock)), Tick(d2)), Cas(op));
            var s3 := Step(Step(s2, Tick(d3)), Restore(op));
            && Text(s3.cell) == Text(s.cell)
            && s3.cell.value.deadline == (if ok then s.cell.value.deadline + d2 + d3 else s.now + d1 + d2 + d3 + TTL_MS)
            && s3.strikes == s.strikes + 1 && s3.rollbacks == s.rollbacks + 1
            && (ok ==> (s3.cell == s.cell <==> d2 + d3 == 0))
  {
    RecordAlone(s, op, clock, d1, ok, d2);
    var s1 := Step(Step(Step(s, Record(op)), Get(op, clock)), Tick(d1));
    var w := Step(Step(s1, PTtl(op, ok, clock)), Tick(d2));
    assert s1.strikes == s.strikes && s1.rollbacks == s.rollbacks && s1.cell == s.cell;
    assert w.strikes == s.strikes && w.rollbacks == s.rollbacks && w.cell == s.cell;
    var s2 := Step(w, Cas(op));
    assert s2.strikes == s.strikes + 1;
    var t := Step(s2, Tick(d3));
    assert t.cell == s2.cell && t.ops == s2.ops;
  }

  /** A first strike taken back leaves no key at all, however late. */
  lemma FirstStrikeThenRestore(s: State, op: OpId, clock: int, d1: nat, d2: nat)
    requires op !in s.ops && s.cell == None && d2 < TTL_MS
    ensures var s1 := Step(Step(Step(s, Record(op)), Get(op, clock)), Tick(d1));
            var s2 := Step(Step(Step(s1, Cas(op)), Tick(d2)), Restore(op));
            s2 == s.(now := s.now + d1 + d2, strikes := s.strikes + 1, rollbacks := s.rollbacks + 1,
                     ops := s.ops[op := Restored], landed := s.landed[op := Landed(Struck(None, clock), s.standing)])
  {
  }

  // ---- the functions themselves ----

  datatype Strike = Strike(state: StallState, previous: Option<StallState>, previousTtlMs: Option<int>)

  // What one attempt meets: the key at its GET, the PTTL it read, the clock, and the key and time at its CAS.
  datatype Attempt = Attempt(found: Option<Cell>, pTtl: Option<int>, clock: int, met: Option<Cell>, at: int)

  function FirstUncontended(attempts: seq<Attempt>): (k: nat)
    ensures k <= |attempts|
    ensures k < |attempts| ==> Text(attempts[k].found) == Text(attempts[k].met)
    ensures forall j | 0 <= j < k :: Text(attempts[j].found) != Text(attempts[j].met)
  {
    if attempts == [] || Text(attempts[0].found) == Text(attempts[0].met) then 0
    else 1 + FirstUncontended(attempts[1..])
  }

  class StallKey {
    var now: int
    var cell: Option<Cell>

    constructor (at: int)
      ensures now == at && cell == None
    {
      now, cell := at, None;
    }

    method CanRestart() returns (ok: bool)
      ensures ok <==> MayRestart(Text(cell), now)
    {
      ok := true;
      if cell.Some? && cell.value.entry.Parsed? {
        ok := cell.value.entry.state.nextRestartAllowedAt <= now;
      }
    }

    method CompareAndSet(expected: Option<Entry>, value: StallState, ttlMs: int) returns (applied: bool)
      modifies this`cell
      ensures applied <==> Text(old(cell)) == expected
      ensures cell == if applied then Some(Cell(Parsed(value), now + ttlMs)) else old(cell)
    {
      applied := (if cell.None? then None else Some(cell.value.entry)) == expected;
      if applied {
        cell := Some(Cell(Parsed(value), now + ttlMs));
      }
    }

    /**
     recordRestart, with the key free to change at every await: the strike lands at the first attempt whose CAS
     meets the value its GET found, one more than exactly what it overwrites; three lost races write nothing.
     */
    method RecordRestart(attempts: seq<Attempt>) returns (r: Option<Strike>)
      requires |attempts| == 3
      modifies this
      ensures FirstUncontended(attempts) == CAS_ATTEMPTS ==> r.None? && cell == attempts[CAS_ATTEMPTS - 1].met
      ensures FirstUncontended(attempts) < CAS_ATTEMPTS ==>
                var a := attempts[FirstUncontended(attempts)];
                var previous := ParseState(Text(a.found));
                && r == Some(Strike(Struck(previous, a.clock), previous, if previous.Some? then a.pTtl else None))
                && r.value.state.restarts == Restarts(ParseState(Text(a.met))) + 1
                && r.value.state.nextRestartAllowedAt == a.clock + BackoffMs(r.value.state.restarts)
                && cell == Some(Cell(Parsed(r.value.state), a.at + TTL_MS))
    {
      for attempt := 0 to CAS_ATTEMPTS
        invariant forall j | 0 <= j < attempt :: Text(attempts[j].found) != Text(attempts[j].met)
        invariant attempt > 0 ==> cell == attempts[attempt - 1].met
      {
        var a := attempts[attempt];
        var raw := Text(a.found);
        var previous := ParseState(raw);
        var previousTtlMs := None;
        if previous.Some? {
          previousTtlMs := a.pTtl;
        }
        var state := Struck(previous, a.clock);
        cell, now := a.met, a.at;
        var applied := CompareAndSet(raw, state, TTL_MS);
        if applied {
          return Some(Strike(state, previous, previousTtlMs));
        }
      }
      r := None;
    }

    method RestoreState(strike: Strike)
      modifies this`cell
      ensures Text(old(cell)) != Some(Parsed(strike.state)) ==> cell == old(cell)
      ensures Text(old(cell)) == Some(Parsed(strike.state)) ==>
                && ParseState(Text(cell)) == strike.previous
                && (cell.Some? ==>
                      cell.value.deadline == now +
                        if strike.previousTtlMs.Some? then strike.previousTtlMs.value else TTL_MS)
    {
      match strike.previous {
        case None =>
          if cell.Some? && cell.value.entry == Parsed(strike.state) {
            cell := None;
          }
        case Some(previous) =>
          var ttlMs := match strike.previousTtlMs case Some(ms) => ms case None => TTL_MS;
          var _ := CompareAndSet(Some(Parsed(strike.state)), previous, ttlMs);
      }
    }
  }
}
