/**
 The idempotency lock of withIdempotency.ts: one Redis key shared by any number of attempts in any
 number of processes. Every script and every single Redis command is one atomic step; a process may
 crash, a reply may be lost, a lock attempt may fail open, a marker may expire at any point between.
 */
module Idempotency {
  import opened Wrappers
  import Markers = IdempotencyMarkers

  datatype Process = Process(instanceId: string, incarnationId: string)

  // What the key holds. JSON text is kept whole; the markers are kept typed (see InspectAgrees).
  datatype Stored =
    | Processing(holder: Process)
    | LegacyProcessing
    | LegacyHolder(instanceId: string)
    | Indeterminate(writer: Process, attempt: nat)
    | Cached(json: string)

  function Text(v: Stored): string {
    match v
    case Processing(p) => Markers.ProcessingValue(p.instanceId, p.incarnationId)
    case LegacyProcessing => Markers.PROCESSING
    case LegacyHolder(id) => Markers.PROCESSING_PREFIX + id
    case Indeterminate(p, n) => Markers.IndeterminateValue(p.instanceId, p.incarnationId, n)
    case Cached(json) => json
  }

  predicate WellFormed(v: Stored) {
    match v
    case Processing(p) => '#' !in p.incarnationId
    case LegacyProcessing => true
    case LegacyHolder(id) => '#' !in id
    case Indeterminate(p, _) => '#' !in p.incarnationId
    case Cached(json) => Markers.IsJsonText(json)
  }

  // ---- the four scripts and the NX acquire ----

  function SetNx(cell: Option<Stored>, v: Stored): Option<Stored> {
    if cell.None? then Some(v) else cell
  }

  function StealIfStale(cell: Option<Stored>, expected: Stored, v: Stored): Option<Stored> {
    if cell == Some(expected) then Some(v) else cell
  }

  function WriteIfOurs(cell: Option<Stored>, ours: Stored, v: Stored, held: bool): Option<Stored> {
    if cell.None? || (held && cell == Some(ours)) then Some(v) else cell
  }

  // RELEASE_IF_OURS and CLEAR_INDETERMINATE are the same compare-and-delete.
  function DeleteIf(cell: Option<Stored>, expected: Stored): Option<Stored> {
    if cell == Some(expected) then None else cell
  }

  // ---- what an attempt does with the value it finds under the key ----

  datatype Status = Executed | Failed | Threw | Served(json: string) | InProgress | Unknown

  datatype Found = Answer(status: Status) | AskRegistry(instanceId: string) | Reclaim

  function Inspect(current: Stored, me: Process): Found {
    match current
    case Indeterminate(_, _) => Answer(Unknown)
    case Cached(json) => Answer(Served(json))
    case LegacyProcessing => Answer(InProgress)
    case LegacyHolder(id) => if id == "" then Answer(InProgress) else AskRegistry(id)
    case Processing(p) =>
      if p == me || p.instanceId == "" then Answer(InProgress)
      else if p.instanceId == me.instanceId then Reclaim
      else AskRegistry(p.instanceId)
  }

  // The same decision on the raw text, in the order the source takes its branches.
  function InspectText(current: string, me: Process): Found {
    if current == Markers.ProcessingValue(me.instanceId, me.incarnationId) then Answer(InProgress)
    else if Markers.IsIndeterminate(current) then Answer(Unknown)
    else
      match Markers.ParseHolder(current)
      case None => Answer(Served(current))
      case Some(holder) =>
        if holder.instanceId == "" then Answer(InProgress)
        else if holder.instanceId == me.instanceId && holder.incarnationId.Some?
                && holder.incarnationId.value != me.incarnationId then Reclaim
        else AskRegistry(holder.instanceId)
  }

  /** The typed decision is the one the code makes on the text, and no two values share a text. */
  lemma InspectAgrees(v: Stored, me: Process)
    requires WellFormed(v) && '#' !in me.incarnationId
    ensures InspectText(Text(v), me) == Inspect(v, me)
  {
    var mine := Markers.ProcessingValue(me.instanceId, me.incarnationId);
    Markers.FormsAreDisjoint(Text(v), me.instanceId, me.incarnationId, 0);
    Markers.ProcessingRoundTrip(me.instanceId, me.incarnationId);
    match v {
      case Processing(p) =>
        Markers.ProcessingRoundTrip(p.instanceId, p.incarnationId);
        Markers.FormsAreDisjoint(Text(v), p.instanceId, p.incarnationId, 0);
        Markers.MarkersAreInjective(p.instanceId, p.incarnationId, 0, me.instanceId, me.incarnationId, 0);
      case LegacyProcessing => Markers.LegacyForms("");
      case LegacyHolder(id) => Markers.LegacyForms(id);
      case Indeterminate(p, n) =>
        Markers.FormsAreDisjoint(Text(v), p.instanceId, p.incarnationId, n);
      case Cached(json) =>
    }
  }

  // ---- attempts ----

  datatype Pc =
    | Acquiring(second: bool)
    | Inspecting
    | Checking(current: Stored)
    | Stealing(current: Stored)
    | Working(held: bool)
    | Caching(held: bool, json: string)
    | Releasing(held: bool, status: Status)
    | Marking(held: bool)
    | Finished(status: Status)

  // `wrote` is the number of the unknown-outcome marker this attempt put under the key; `told` says
  // its caller was handed that marker, without which it cannot be retracted.
  datatype Attempt = Attempt(process: Process, pc: Pc, wrote: Option<nat>, told: bool)

  datatype State = State(
    cell: Option<Stored>,
    live: map<string, string>,      // instance id -> incarnation running now
    booted: set<Process>,
    counters: map<Process, nat>,    // attemptCounter of each process
    attempts: map<nat, Attempt>
  )

  datatype Net = Replied | Lost(applied: bool)
  datatype Outcome = Value(json: string) | Null | Ambiguous | Error
  datatype Registry = Alive | Dead | Unreachable

  datatype Event =
    | Boot(process: Process)
    | Crash(instanceId: string)
    | Expire
    | Begin(a: nat, instanceId: string)
    | Acquire(a: nat, net: Net)
    | Get(a: nat, net: Net)
    | Check(a: nat, answer: Registry)
    | Steal(a: nat, net: Net)
    | Work(a: nat, outcome: Outcome)
    | Cache(a: nat, net: Net)
    | Release(a: nat, net: Net)
    | Mark(a: nat, net: Net)
    | Retract(a: nat, net: Net)

  predicate IsLive(s: State, p: Process) {
    p.instanceId in s.live && s.live[p.instanceId] == p.incarnationId
  }

  predicate Runs(s: State, a: nat) {
    a in s.attempts && IsLive(s, s.attempts[a].process)
  }

  function At(s: State, a: nat, pc: Pc): State
    requires a in s.attempts
  {
    s.(attempts := s.attempts[a := s.attempts[a].(pc := pc)])
  }

  // The cell after a command: a request lost on the way in leaves it alone.
  function Sent(cell: Option<Stored>, after: Option<Stored>, net: Net): Option<Stored> {
    if net == Lost(false) then cell else after
  }

  function AcquireStep(s: State, a: nat, second: bool, net: Net): State
    requires a in s.attempts
  {
    var ours := Processing(s.attempts[a].process);
    var s' := s.(cell := Sent(s.cell, SetNx(s.cell, ours), net));
    if net.Lost? then At(s', a, Working(false))
    else if s.cell.None? then At(s', a, Working(true))
    else At(s', a, if second then Finished(InProgress) else Inspecting)
  }

  function GetStep(s: State, a: nat, net: Net): State
    requires a in s.attempts
  {
    if net.Lost? then At(s, a, Finished(InProgress))
    else if s.cell.None? then At(s, a, Acquiring(true))
    else
      var current := s.cell.value;
      match Inspect(current, s.attempts[a].process)
      case Answer(status) => At(s, a, Finished(status))
      case AskRegistry(_) => At(s, a, Checking(current))
      case Reclaim => At(s, a, Stealing(current))
  }

  function StealStep(s: State, a: nat, current: Stored, net: Net): State
    requires a in s.attempts
  {
    var s' := s.(cell := Sent(s.cell, StealIfStale(s.cell, current, Processing(s.attempts[a].process)), net));
    At(s', a, if net == Replied && s.cell == Some(current) then Working(true) else Finished(InProgress))
  }

  function WorkStep(s: State, a: nat, held: bool, outcome: Outcome): State
    requires a in s.attempts
  {
    match outcome
    case Value(json) => At(s, a, Caching(held, json))
    case Null => At(s, a, Releasing(held, Failed))
    case Ambiguous => At(s, a, Marking(held))
    case Error => At(s, a, Releasing(held, Threw))
  }

  function CacheStep(s: State, a: nat, held: bool, json: string, net: Net): State
    requires a in s.attempts
  {
    var ours := Processing(s.attempts[a].process);
    var after := WriteIfOurs(s.cell, ours, Cached(json), held);
    var wrote := s.cell.None? || (held && s.cell == Some(ours));
    At(s.(cell := Sent(s.cell, after, net)), a,
       if net == Replied && wrote then Finished(Executed) else Releasing(held, Executed))
  }

  function ReleaseStep(s: State, a: nat, held: bool, status: Status, net: Net): State
    requires a in s.attempts
  {
    var after := if held then DeleteIf(s.cell, Processing(s.attempts[a].process)) else s.cell;
    At(s.(cell := Sent(s.cell, after, net)), a, Finished(status))
  }

  function MarkStep(s: State, a: nat, held: bool, net: Net): State
    requires a in s.attempts && s.attempts[a].process in s.counters
  {
    var me := s.attempts[a].process;
    var n := s.counters[me] + 1;
    var after := WriteIfOurs(s.cell, Processing(me), Indeterminate(me, n), held);
    var writes := (s.cell.None? || (held && s.cell == Some(Processing(me)))) && net != Lost(false);
    s.(cell := Sent(s.cell, after, net),
       counters := s.counters[me := n],
       attempts := s.attempts[a := Attempt(me, Finished(Threw),
                                           if writes then Some(n) else None,
                                           writes && net == Replied)])
  }

  // An event whose guard does not hold changes nothing, so every sequence of events is a run.
  function Step(s: State, e: Event): State {
    match e
    case Boot(p) =>
      if p in s.booted then s
      else s.(live := s.live[p.instanceId := p.incarnationId], booted := s.booted + {p}, counters := s.counters[p := 0])
    case Crash(id) => s.(live := s.live - {id})
    case Expire => s.(cell := None)
    case Begin(a, id) =>
      if a in s.attempts || id !in s.live then s
      else s.(attempts := s.attempts[a := Attempt(Process(id, s.live[id]), Acquiring(false), None, false)])
    case Acquire(a, net) =>
      if Runs(s, a) && s.attempts[a].pc.Acquiring? then AcquireStep(s, a, s.attempts[a].pc.second, net) else s
    case Get(a, net) =>
      if Runs(s, a) && s.attempts[a].pc.Inspecting? then GetStep(s, a, net) else s
    case Check(a, answer) =>
      if Runs(s, a) && s.attempts[a].pc.Checking?
      then At(s, a, if answer == Dead then Stealing(s.attempts[a].pc.current) else Finished(InProgress)) else s
    case Steal(a, net) =>
      if Runs(s, a) && s.attempts[a].pc.Stealing? then StealStep(s, a, s.attempts[a].pc.current, net) else s
    case Work(a, outcome) =>
      if Runs(s, a) && s.attempts[a].pc.Working? then WorkStep(s, a, s.attempts[a].pc.held, outcome) else s
    case Cache(a, net) =>
      if Runs(s, a) && s.attempts[a].pc.Caching?
      then CacheStep(s, a, s.attempts[a].pc.held, s.attempts[a].pc.json, net) else s
    case Release(a, net) =>
      if Runs(s, a) && s.attempts[a].pc.Releasing?
      then ReleaseStep(s, a, s.attempts[a].pc.held, s.attempts[a].pc.status, net) else s
    case Mark(a, net) =>
      if Runs(s, a) && s.attempts[a].pc.Marking? && s.attempts[a].process in s.counters
      then MarkStep(s, a, s.attempts[a].pc.held, net) else s
    case Retract(a, net) =>
      if Runs(s, a) && s.attempts[a].told && s.attempts[a].wrote.Some?
      then s.(cell := Sent(s.cell,
                           DeleteIf(s.cell, Indeterminate(s.attempts[a].process, s.attempts[a].wrote.value)), net))
      else s
  }

  function Run(s: State, es: seq<Event>): State
    decreases |es|
  {
    if es == [] then s else Run(Step(s, es[0]), es[1..])
  }

  // ---- what every run keeps, with no assumption on the environment ----

  predicate Known(s: State, v: Stored) {
    match v
    case Processing(p) => p in s.booted
    case Indeterminate(p, n) => p in s.counters && n <= s.counters[p]
    case _ => true
  }

  predicate Stealable(v: Stored) {
    v.Processing? || v.LegacyHolder?
  }

  predicate AttemptOk(s: State, t: Attempt) {
    && t.process in s.booted
    && t.process in s.counters
    && (t.pc.Checking? || t.pc.Stealing? ==> Stealable(t.pc.current) && Known(s, t.pc.current))
    && (t.wrote.Some? ==> t.wrote.value <= s.counters[t.process] && t.pc.Finished?)
    && (t.told ==> t.wrote.Some?)
  }

  ghost predicate Inv(s: State) {
    && s.counters.Keys == s.booted
    && (forall id | id in s.live :: Process(id, s.live[id]) in s.booted)
    && (s.cell.Some? ==> Known(s, s.cell.value))
    && (forall a | a in s.attempts :: AttemptOk(s, s.attempts[a]))
    && MarkersDistinct(s)
  }

  // No two attempts have written the same unknown-outcome marker.
  ghost predicate MarkersDistinct(s: State) {
    forall a, b | a in s.attempts && b in s.attempts && a != b && s.attempts[a].wrote.Some? ::
      s.attempts[a].process != s.attempts[b].process || s.attempts[a].wrote != s.attempts[b].wrote
  }

  // A key left behind by earlier processes, and no attempt yet.
  ghost predicate Start(s: State) {
    Inv(s) && s.attempts == map[] && s.live == map[]
  }

  // Every step but Boot, Crash, Begin, Mark and Retract moves one attempt and perhaps the cell.
  lemma MoveKeepsInv(s: State, cell: Option<Stored>, a: nat, pc: Pc)
    requires Inv(s) && a in s.attempts && s.attempts[a].wrote.None?
    requires cell.Some? ==> Known(s, cell.value)
    requires pc.Checking? || pc.Stealing? ==> Stealable(pc.current) && Known(s, pc.current)
    ensures Inv(At(s.(cell := cell), a, pc))
  {
  }

  lemma MarkKeepsInv(s: State, a: nat, held: bool, net: Net)
    requires Inv(s) && a in s.attempts && s.attempts[a].wrote.None?
    ensures Inv(MarkStep(s, a, held, net))
  {
  }

  predicate Moves(e: Event) {
    e.Acquire? || e.Get? || e.Check? || e.Steal? || e.Work? || e.Cache? || e.Release?
  }

  // The attempt an effective move belongs to, where it goes, and what it may leave in the cell.
  ghost predicate MovesOne(s: State, s': State, a: nat) {
    && Runs(s, a) && s.attempts[a].wrote.None? && a in s'.attempts
    && s' == At(s.(cell := s'.cell), a, s'.attempts[a].pc)
    && (s'.cell.Some? ==> Known(s, s'.cell.value))
    && (var pc := s'.attempts[a].pc; pc.Checking? || pc.Stealing? ==> Stealable(pc.current) && Known(s, pc.current))
  }

  lemma ClaimingMovesOne(s: State, e: Event)
    requires Inv(s) && (e.Acquire? || e.Get? || e.Check? || e.Steal?) && Step(s, e) != s
    ensures MovesOne(s, Step(s, e), e.a)
  {
    assert AttemptOk(s, s.attempts[e.a]);
  }

  lemma ConcludingMovesOne(s: State, e: Event)
    requires Inv(s) && (e.Work? || e.Cache? || e.Release?) && Step(s, e) != s
    ensures MovesOne(s, Step(s, e), e.a)
  {
    assert AttemptOk(s, s.attempts[e.a]);
  }

  lemma MoveShape(s: State, e: Event)
    requires Inv(s) && Moves(e) && Step(s, e) != s
    ensures MovesOne(s, Step(s, e), e.a)
  {
    if e.Work? || e.Cache? || e.Release? {
      ConcludingMovesOne(s, e);
    } else {
      ClaimingMovesOne(s, e);
    }
  }

  lemma StepKeepsInv(s: State, e: Event)
    requires Inv(s)
    ensures Inv(Step(s, e))
  {
    if Step(s, e) == s {
    } else if Moves(e) {
      MoveShape(s, e);
      MoveKeepsInv(s, Step(s, e).cell, e.a, Step(s, e).attempts[e.a].pc);
    } else if e.Mark? {
      assert AttemptOk(s, s.attempts[e.a]);
      MarkKeepsInv(s, e.a, s.attempts[e.a].pc.held, e.net);
    } else {
      OutsideStepKeepsInv(s, e);
    }
  }

  lemma OutsideStepKeepsInv(s: State, e: Event)
    requires Inv(s) && (e.Boot? || e.Crash? || e.Expire? || e.Begin? || e.Retract?)
    ensures Inv(Step(s, e))
  {
    match e {
      case Boot(_) =>
      case Crash(_) =>
      case Expire =>
      case Begin(_, _) =>
      case Retract(_, _) =>
    }
  }

  lemma {:induction false} RunKeepsInv(s: State, es: seq<Event>)
    requires Inv(s)
    ensures Inv(Run(s, es))
    decreases |es|
  {
    if es != [] {
      StepKeepsInv(s, es[0]);
      RunKeepsInv(Step(s, es[0]), es[1..]);
    }
  }

  lemma StepKeepsCached(s: State, e: Event)
    requires Inv(s) && s.cell.Some? && s.cell.value.Cached? && e != Expire
    ensures Step(s, e).cell == s.cell
  {
  }

  /** A cached result is never overwritten and never deleted: only its own expiry takes it away. */
  lemma {:induction false} CachedResultStands(s: State, es: seq<Event>)
    requires Inv(s) && s.cell.Some? && s.cell.value.Cached? && Expire !in es
    ensures Run(s, es).cell == s.cell
    decreases |es|
  {
    if es != [] {
      StepKeepsCached(s, es[0]);
      StepKeepsInv(s, es[0]);
      CachedResultStands(Step(s, es[0]), es[1..]);
    }
  }

  ghost predicate WroteIt(s: State, a: nat, v: Stored) {
    a in s.attempts && v.Indeterminate? && s.attempts[a].process == v.writer && s.attempts[a].wrote == Some(v.attempt)
  }

  /** An unknown-outcome marker leaves the key only through its expiry or a retraction by its writer. */
  lemma OnlyItsWriterRetracts(s: State, e: Event)
    requires Inv(s) && s.cell.Some? && s.cell.value.Indeterminate?
    requires Step(s, e).cell != s.cell && e != Expire
    ensures e.Retract? && Step(s, e).cell == None
    ensures forall b :: WroteIt(s, b, s.cell.value) <==> b == e.a
  {
  }

  /**
   The positive half: a retraction that reaches Redis, by an attempt that was handed its marker, empties the key
   exactly when the key still holds that marker; one that does not reach it, or of an attempt never told, changes
   nothing.
   */
  lemma RetractsIff(s: State, a: nat, net: Net)
    requires s.cell.Some?
    ensures var s' := Step(s, Retract(a, net));
            && (s'.cell == None <==>
                  Runs(s, a) && s.attempts[a].told && WroteIt(s, a, s.cell.value) && net != Lost(false))
            && (s'.cell != None ==> s' == s)
  {
  }

  /** An unknown outcome can be taken back: marked under its own lock and retracted, the key is free again. */
  lemma MarkThenRetract(s: State, a: nat)
    requires Inv(s) && Runs(s, a) && s.attempts[a].pc == Marking(true)
    requires s.cell == Some(Processing(s.attempts[a].process))
    ensures var s1 := Step(s, Mark(a, Replied));
            && s1.cell.Some? && s1.cell.value.Indeterminate? && WroteIt(s1, a, s1.cell.value)
            && Step(s1, Retract(a, Replied)).cell == None
  {
    assert AttemptOk(s, s.attempts[a]);
  }

  /** A run is its events one by one. */
  lemma {:induction false} RunsOneByOne(s: State, es: seq<Event>, e: Event)
    ensures Run(s, []) == s && Run(s, es + [e]) == Step(Run(s, es), e)
    decreases |es|
  {
    if es == [] {
      assert ([] + [e])[1..] == [];
    } else {
      assert (es + [e])[1..] == es[1..] + [e];
      RunsOneByOne(Step(s, es[0]), es[1..], e);
    }
  }

  // ---- what each command does, and where it takes its attempt ----

  /** What is found decides: a result is served, an unknown outcome told, a holder of another instance asked after. */
  lemma InspectsSo(current: Stored, me: Process)
    ensures current.Cached? ==> Inspect(current, me) == Answer(Served(current.json))
    ensures current.Indeterminate? ==> Inspect(current, me) == Answer(Unknown)
    ensures current.LegacyProcessing? ==> Inspect(current, me) == Answer(InProgress)
    ensures current.LegacyHolder? ==>
              Inspect(current, me) ==
              if current.instanceId == "" then Answer(InProgress) else AskRegistry(current.instanceId)
    ensures current.Processing? ==>
              Inspect(current, me) ==
              if current.holder == me || current.holder.instanceId == "" then Answer(InProgress)
              else if current.holder.instanceId == me.instanceId then Reclaim
              else AskRegistry(current.holder.instanceId)
  {
  }

  predicate Reaches(net: Net) {
    net != Lost(false)
  }

  function After(s: State, cell: Option<Stored>, a: nat, pc: Pc): State
    requires a in s.attempts
  {
    s.(cell := cell, attempts := s.attempts[a := s.attempts[a].(pc := pc)])
  }

  /**
   SET NX fills an empty key. Without its reply the work goes on with no lock; with it, an empty key is the
   attempt's own, and a full one is looked at the first time and refused the second.
   */
  lemma AcquireSo(s: State, a: nat, net: Net)
    requires Runs(s, a) && s.attempts[a].pc.Acquiring?
    ensures Step(s, Acquire(a, net)) ==
            After(s, if s.cell.None? && Reaches(net) then Some(Processing(s.attempts[a].process)) else s.cell, a,
                  if net.Lost? then Working(false) else if s.cell.None? then Working(true)
                  else if s.attempts[a].pc.second then Finished(InProgress) else Inspecting)
  {
  }

  /** A GET changes nothing: unanswered it ends the attempt, on an empty key it is back to SET NX, else it decides. */
  lemma GetSo(s: State, a: nat, net: Net)
    requires Runs(s, a) && s.attempts[a].pc.Inspecting?
    ensures Step(s, Get(a, net)) ==
            After(s, s.cell, a,
                  if net.Lost? then Finished(InProgress) else if s.cell.None? then Acquiring(true)
                  else
                    match Inspect(s.cell.value, s.attempts[a].process)
                    case Answer(status) => Finished(status)
                    case AskRegistry(_) => Checking(s.cell.value)
                    case Reclaim => Stealing(s.cell.value))
  {
  }

  /** Only a holder reported dead is robbed, and only of the value that was seen. */
  lemma StealSo(s: State, a: nat, answer: Registry, net: Net)
    ensures Runs(s, a) && s.attempts[a].pc.Checking? ==>
              Step(s, Check(a, answer)) ==
              After(s, s.cell, a, if answer == Dead then Stealing(s.attempts[a].pc.current) else Finished(InProgress))
    ensures Runs(s, a) && s.attempts[a].pc.Stealing? ==>
              var robs := s.cell == Some(s.attempts[a].pc.current);
              Step(s, Steal(a, net)) ==
              After(s, if robs && Reaches(net) then Some(Processing(s.attempts[a].process)) else s.cell, a,
                    if robs && net == Replied then Working(true) else Finished(InProgress))
  {
  }

  /**
   The work's end: a result is cached over nothing or the own lock, and else the lock is released; no result, or an
   error, releases it; an ambiguous end puts a fresh marker over nothing or the own lock, and the caller is told of
   it exactly when it is known to stand. A release deletes the own lock and nothing else.
   */
  lemma ConcludeSo(s: State, a: nat, outcome: Outcome, net: Net)
    requires Runs(s, a)
    ensures var me := s.attempts[a].process;
            s.attempts[a].pc.Working? ==>
              var held := s.attempts[a].pc.held;
              Step(s, Work(a, outcome)) ==
              After(s, s.cell, a,
                    match outcome
                    case Value(json) => Caching(held, json)
                    case Null => Releasing(held, Failed)
                    case Ambiguous => Marking(held)
                    case Error => Releasing(held, Threw))
    ensures var me := s.attempts[a].process;
            s.attempts[a].pc.Caching? ==>
              var Caching(held, json) := s.attempts[a].pc;
              var writes := s.cell.None? || (held && s.cell == Some(Processing(me)));
              Step(s, Cache(a, net)) ==
              After(s, if writes && Reaches(net) then Some(Cached(json)) else s.cell, a,
                    if writes && net == Replied then Finished(Executed) else Releasing(held, Executed))
    ensures var me := s.attempts[a].process;
            s.attempts[a].pc.Releasing? ==>
              var Releasing(held, status) := s.attempts[a].pc;
              Step(s, Release(a, net)) ==
              After(s, if held && s.cell == Some(Processing(me)) && Reaches(net) then None else s.cell, a,
                    Finished(status))
    ensures var me := s.attempts[a].process;
            s.attempts[a].pc.Marking? && me in s.counters ==>
              var n := s.counters[me] + 1;
              var writes := (s.cell.None? || (s.attempts[a].pc.held && s.cell == Some(Processing(me)))) && Reaches(net);
              Step(s, Mark(a, net)) ==
              s.(cell := if writes then Some(Indeterminate(me, n)) else s.cell, counters := s.counters[me := n],
                 attempts := s.attempts[a := Attempt(me, Finished(Threw), if writes then Some(n) else None,
                                                     writes && net == Replied)])
  {
  }

  /** A process that crashed sends nothing any more, and one that starts under the same id is another one. */
  lemma CrashEndsAttempts(s: State, a: nat, e: Event)
    requires Inv(s) && a in s.attempts && IsAttemptEvent(e) && e.a == a
    ensures var s' := Step(s, Crash(s.attempts[a].process.instanceId)); Step(s', e) == s'
    ensures forall p: Process :: p !in s.booted ==> Step(s, Boot(p)).live == s.live[p.instanceId := p.incarnationId]
  {
  }

  predicate IsAttemptEvent(e: Event) {
    Moves(e) || e.Mark? || e.Retract?
  }

  // ---- mutual exclusion ----

  predicate Holding(pc: Pc) {
    (pc.Working? || pc.Caching? || pc.Marking? || pc.Releasing?) && pc.held
  }

  predicate Holds(s: State, a: nat) {
    Runs(s, a) && Holding(s.attempts[a].pc)
  }

  // The two facts about the environment: an instance reported dead is dead, and no value expires
  // while a running attempt still counts on its lock.
  ghost predicate Faithful(s: State, e: Event) {
    && (e.Check? && e.answer == Dead && Runs(s, e.a)
        && s.attempts[e.a].pc.Checking? && s.attempts[e.a].pc.current.Processing? ==>
          s.attempts[e.a].pc.current.holder.instanceId !in s.live)
    && (e.Expire? ==> forall a :: !Holds(s, a))
  }

  ghost predicate AllFaithful(s: State, es: seq<Event>)
    decreases |es|
  {
    es == [] || (Faithful(s, es[0]) && AllFaithful(Step(s, es[0]), es[1..]))
  }

  ghost predicate Exclusive(s: State) {
    && (forall a :: Holds(s, a) ==>
          || s.cell == Some(Processing(s.attempts[a].process))
          || (s.attempts[a].pc.Releasing? && s.cell.Some? && s.cell.value.Cached?))
    && (forall a, b :: Holds(s, a) && Holds(s, b) ==> a == b)
    && (forall a :: Runs(s, a) && s.attempts[a].pc.Stealing? && s.attempts[a].pc.current.Processing? ==>
          !IsLive(s, s.attempts[a].pc.current.holder))
  }

  lemma MoveKeepsExclusive(s: State, cell: Option<Stored>, a: nat, pc: Pc)
    requires Exclusive(s) && Runs(s, a) && KeepsOthersOut(s, cell, a, pc)
    ensures Exclusive(At(s.(cell := cell), a, pc))
  {
    var s' := At(s.(cell := cell), a, pc);
    assert forall b :: b != a ==> (Holds(s', b) <==> Holds(s, b));
  }

  lemma StepKeepsExclusive(s: State, e: Event)
    requires Inv(s) && Exclusive(s) && Faithful(s, e)
    ensures Exclusive(Step(s, e))
  {
    var s' := Step(s, e);
    if s' == s {
    } else if Moves(e) {
      MoveShape(s, e);
      if e.Work? || e.Cache? || e.Release? {
        ConcludingIsExclusive(s, e);
      } else {
        ClaimingIsExclusive(s, e);
      }
      MoveKeepsExclusive(s, s'.cell, e.a, s'.attempts[e.a].pc);
    } else {
      OutsideStepKeepsExclusive(s, e);
    }
  }

  // What a move must respect for the lock to stay exclusive.
  ghost predicate KeepsOthersOut(s: State, cell: Option<Stored>, a: nat, pc: Pc)
    requires a in s.attempts
  {
    && (forall b :: b != a && Holds(s, b) ==> cell == s.cell)
    && (Holding(pc) ==>
          && (cell == Some(Processing(s.attempts[a].process)) || (pc.Releasing? && cell.Some? && cell.value.Cached?))
          && forall b :: b != a ==> !Holds(s, b))
    && (pc.Stealing? && pc.current.Processing? ==> !IsLive(s, pc.current.holder))
  }

  lemma ClaimingIsExclusive(s: State, e: Event)
    requires Inv(s) && Exclusive(s) && Faithful(s, e) && (e.Acquire? || e.Get? || e.Check? || e.Steal?)
    requires Step(s, e) != s && Runs(s, e.a) && e.a in Step(s, e).attempts
    ensures KeepsOthersOut(s, Step(s, e).cell, e.a, Step(s, e).attempts[e.a].pc)
  {
    match e {
      case Acquire(a, _) =>
      case Get(a, _) =>
      case Check(a, _) =>
      case Steal(a, _) =>
    }
  }

  lemma ConcludingIsExclusive(s: State, e: Event)
    requires Inv(s) && Exclusive(s) && (e.Work? || e.Cache? || e.Release?)
    requires Step(s, e) != s && Runs(s, e.a) && e.a in Step(s, e).attempts
    ensures KeepsOthersOut(s, Step(s, e).cell, e.a, Step(s, e).attempts[e.a].pc)
  {
    match e {
      case Work(a, _) => assert s.attempts[a].pc.held ==> Holds(s, a);
      case Cache(a, _) => assert s.attempts[a].pc.held ==> Holds(s, a);
      case Release(a, _) => assert s.attempts[a].pc.held ==> Holds(s, a);
    }
  }

  lemma BootKeepsExclusive(s: State, p: Process)
    requires Inv(s) && Exclusive(s)
    ensures Exclusive(Step(s, Boot(p)))
  {
    var s' := Step(s, Boot(p));
    assert forall a :: Runs(s', a) ==> AttemptOk(s, s.attempts[a]);
    assert forall a :: Runs(s', a) ==> Runs(s, a);
    assert forall a :: Holds(s', a) ==> Holds(s, a);
  }

  lemma MarkKeepsExclusive(s: State, a: nat, net: Net)
    requires Inv(s) && Exclusive(s)
    ensures Exclusive(Step(s, Mark(a, net)))
  {
    var s' := Step(s, Mark(a, net));
    if s' != s {
      assert s.attempts[a].pc.held ==> Holds(s, a);
      assert forall b :: Holds(s', b) <==> b != a && Holds(s, b);
    }
  }

  lemma FewerHoldersKeepExclusive(s: State, s': State)
    requires Exclusive(s) && s'.cell == s.cell
    requires forall a :: Runs(s', a) ==> (Runs(s, a) && s'.attempts[a] == s.attempts[a]) || s'.attempts[a].pc.Acquiring?
    requires forall p :: IsLive(s', p) ==> IsLive(s, p)
    ensures Exclusive(s')
  {
    assert forall a :: Holds(s', a) ==> Holds(s, a);
  }

  lemma OutsideStepKeepsExclusive(s: State, e: Event)
    requires Inv(s) && Exclusive(s) && Faithful(s, e) && !Moves(e)
    ensures Exclusive(Step(s, e))
  {
    var s' := Step(s, e);
    match e {
      case Boot(p) => BootKeepsExclusive(s, p);
      case Mark(a, net) => MarkKeepsExclusive(s, a, net);
      case Crash(_) => FewerHoldersKeepExclusive(s, s');
      case Begin(_, _) => FewerHoldersKeepExclusive(s, s');
      case Expire => assert forall a :: Holds(s', a) <==> Holds(s, a);
      case Retract(_, _) => assert forall a :: Holds(s', a) <==> Holds(s, a);
    }
  }

  /** At most one attempt at a time runs with the lock, in every run with no lapse under a holder and no false death. */
  lemma {:induction false} AtMostOneHolder(s: State, es: seq<Event>)
    requires Inv(s) && Exclusive(s) && AllFaithful(s, es)
    ensures Exclusive(Run(s, es))
    ensures forall a, b :: Holds(Run(s, es), a) && Holds(Run(s, es), b) ==> a == b
    decreases |es|
  {
    if es != [] {
      StepKeepsExclusive(s, es[0]);
      StepKeepsInv(s, es[0]);
      AtMostOneHolder(Step(s, es[0]), es[1..]);
    }
  }

  // ---- why the two environment facts are needed ----

  const A := Process("a", "1")
  const B := Process("b", "1")

  function Empty(): State { State(None, map[], {}, map[], map[]) }

  // Attempt 0 of instance a takes the lock; attempt 1 of instance b begins.
  function TwoAttempts(): State {
    State(Some(Processing(A)), map["a" := "1", "b" := "1"], {A, B}, map[A := 0, B := 0],
          map[0 := Attempt(A, Working(true), None, false), 1 := Attempt(B, Acquiring(false), None, false)])
  }

  lemma TwoAttemptsReachable()
    ensures Start(Empty())
    ensures Step(Step(Step(Step(Step(Empty(), Boot(A)), Boot(B)), Begin(0, "a")), Acquire(0, Replied)),
                 Begin(1, "b")) == TwoAttempts()
  {
    var s1 := Step(Empty(), Boot(A));
    var s2 := Step(s1, Boot(B));
    assert s2 == State(None, map["a" := "1", "b" := "1"], {A, B}, map[A := 0, B := 0], map[]);
    var s3 := Step(s2, Begin(0, "a"));
    assert s3.attempts == map[0 := Attempt(A, Acquiring(false), None, false)];
    var s4 := Step(s3, Acquire(0, Replied));
    assert s4.attempts == map[0 := Attempt(A, Working(true), None, false)];
    var s5 := Step(s4, Begin(1, "b"));
    assert s5.attempts == TwoAttempts().attempts;
  }

  /** Without the first, a lock that lapses under its holder is taken by another attempt. */
  lemma LapseGivesTwoHolders()
    ensures var s := Step(Step(TwoAttempts(), Expire), Acquire(1, Replied)); Holds(s, 0) && Holds(s, 1)
  {
  }

  /** Without the second, a live holder reported dead is robbed of its lock while it runs. */
  lemma FalseDeathGivesTwoHolders()
    ensures var s := Probe(Step(TwoAttempts(), Acquire(1, Replied)), 1, Dead); Holds(s, 0) && Holds(s, 1)
  {
    var s1 := Step(TwoAttempts(), Acquire(1, Replied));
    assert s1 == With(TwoAttempts(), s1.cell, 1, B, Inspecting);
    ProbeIsAlone(TwoAttempts(), s1, 1, B, {}, Dead);
  }

  // ---- one call with nobody else at the key ----

  predicate Free(cell: Option<Stored>, me: Process, alive: set<string>) {
    match cell
    case None => true
    case Some(v) =>
      match Inspect(v, me)
      case Answer(_) => false
      case AskRegistry(id) => id !in alive
      case Reclaim => true
  }

  datatype Call = Call(cell: Option<Stored>, counter: nat, status: Status, ran: bool)

  // What one undisturbed call does to the key, and what it answers. `reached` is false when Redis could
  // not be reached for the acquire: the work then runs with no lock and may only fill an empty key.
  function Alone(cell: Option<Stored>, me: Process, counter: nat, alive: set<string>, reached: bool,
                 work: Outcome): Call {
    if !reached then
      match work
      case Value(json) => Call(if cell.None? then Some(Cached(json)) else cell, counter, Executed, true)
      case Null => Call(cell, counter, Failed, true)
      case Ambiguous =>
        Call(if cell.None? then Some(Indeterminate(me, counter + 1)) else cell, counter + 1, Threw, true)
      case Error => Call(cell, counter, Threw, true)
    else if Free(cell, me, alive) then
      match work
      case Value(json) => Call(Some(Cached(json)), counter, Executed, true)
      case Null => Call(None, counter, Failed, true)
      case Ambiguous => Call(Some(Indeterminate(me, counter + 1)), counter + 1, Threw, true)
      case Error => Call(None, counter, Threw, true)
    else
      var found := Inspect(cell.value, me);
      Call(cell, counter, if found.Answer? then found.status else InProgress, false)
  }

  /**
   A repeated request is answered from the first one: after a result every later call, by any process,
   returns that result without running its work; after an unknown outcome every later call says so.
   Only a call that finished without an effect leaves the key free for the next one.
   */
  lemma RepeatedCall(cell: Option<Stored>, me: Process, counter: nat, alive: set<string>, work: Outcome,
                     me': Process, counter': nat, alive': set<string>, work': Outcome)
    requires Free(cell, me, alive)
    ensures var first := Alone(cell, me, counter, alive, true, work);
            var second := Alone(first.cell, me', counter', alive', true, work');
            && first.ran
            && (work.Value? ==> !second.ran && second.status == Served(work.json) && second.cell == first.cell)
            && (work.Ambiguous? ==> !second.ran && second.status == Unknown && second.cell == first.cell)
            && (work.Null? || work.Error? <==> second.ran)
  {
  }

  // The events of one attempt; those of the claim that its path does not take are no-ops.
  function Claim(s: State, a: nat, id: string, answer: Registry, net: Net): State {
    Probe(Step(Step(s, Begin(a, id)), Acquire(a, net)), a, answer)
  }

  function Probe(s: State, a: nat, answer: Registry): State {
    Step(Step(Step(s, Get(a, Replied)), Check(a, answer)), Steal(a, Replied))
  }

  function Conclude(s: State, a: nat, work: Outcome): State {
    var worked := Step(s, Work(a, work));
    match work
    case Value(_) => Step(Step(worked, Cache(a, Replied)), Release(a, Replied))
    case Ambiguous => Step(worked, Mark(a, Replied))
    case _ => Step(worked, Release(a, Replied))
  }

  lemma ClaimIsAlone(s: State, a: nat, id: string, alive: set<string>, answer: Registry, reached: bool)
    requires a !in s.attempts && id in s.live
    requires s.cell.Some? && Inspect(s.cell.value, Process(id, s.live[id])).AskRegistry? ==>
               (answer == Dead <==> Inspect(s.cell.value, Process(id, s.live[id])).instanceId !in alive)
    ensures var me := Process(id, s.live[id]);
            var won := Free(s.cell, me, alive);
            var pc := if !reached then Working(false) else if won then Working(true)
                      else Finished(Alone(s.cell, me, 0, alive, true, Null).status);
            Claim(s, a, id, answer, if reached then Replied else Lost(false))
              == s.(cell := if reached && won then Some(Processing(me)) else s.cell,
                    attempts := s.attempts[a := Attempt(me, pc, None, false)])
  {
    var me := Process(id, s.live[id]);
    BeginAndAcquire(s, a, id, if reached then Replied else Lost(false));
    var s2 := Step(Step(s, Begin(a, id)), Acquire(a, if reached then Replied else Lost(false)));
    ProbeIsAlone(s, s2, a, me, alive, answer);
  }

  lemma BeginAndAcquire(s: State, a: nat, id: string, net: Net)
    requires a !in s.attempts && id in s.live && net != Lost(true)
    ensures var me := Process(id, s.live[id]);
            Step(Step(s, Begin(a, id)), Acquire(a, net))
            == if net.Lost? then With(s, s.cell, a, me, Working(false))
               else if s.cell.None? then With(s, Some(Processing(me)), a, me, Working(true))
               else With(s, s.cell, a, me, Inspecting)
  {
  }

  function With(s: State, cell: Option<Stored>, a: nat, me: Process, pc: Pc): State {
    s.(cell := cell, attempts := s.attempts[a := Attempt(me, pc, None, false)])
  }

  // After the acquire: look at what is there and, when its holder is gone, take it over.
  lemma ProbeIsAlone(s: State, s2: State, a: nat, me: Process, alive: set<string>, answer: Registry)
    requires a in s2.attempts && s2 == With(s, s2.cell, a, me, s2.attempts[a].pc) && IsLive(s, me)
    requires s2.attempts[a].pc.Working? || (s2.attempts[a].pc == Inspecting && s2.cell.Some?)
    requires s2.attempts[a].pc == Inspecting && Inspect(s2.cell.value, me).AskRegistry? ==>
               (answer == Dead <==> Inspect(s2.cell.value, me).instanceId !in alive)
    ensures Probe(s2, a, answer)
            == if s2.attempts[a].pc.Working? then s2
               else if Free(s2.cell, me, alive) then With(s, Some(Processing(me)), a, me, Working(true))
               else With(s, s2.cell, a, me, Finished(Alone(s2.cell, me, 0, alive, true, Null).status))
  {
    if s2.attempts[a].pc == Inspecting {
      var s3 := Step(s2, Get(a, Replied));
      assert s3 == With(s, s2.cell, a, me, s3.attempts[a].pc);
      var s4 := Step(s3, Check(a, answer));
      assert s4 == With(s, s2.cell, a, me, s4.attempts[a].pc);
      var s5 := Step(s4, Steal(a, Replied));
      assert s5 == With(s, s5.cell, a, me, s5.attempts[a].pc);
    }
  }

  lemma ConcludeIsAlone(s: State, a: nat, held: bool, work: Outcome)
    requires Runs(s, a) && s.attempts[a].process in s.counters && s.attempts[a].pc == Working(held)
    requires held ==> s.cell == Some(Processing(s.attempts[a].process))
    ensures var me := s.attempts[a].process;
            var s' := Conclude(s, a, work);
            && a in s'.attempts && me in s'.counters
            && Call(s'.cell, s'.counters[me], AnswerOf(s'.attempts[a].pc), true)
               == Alone(if held then None else s.cell, me, s.counters[me], {}, held, work)
  {
    var s1 := Step(s, Work(a, work));
    assert s1 == WorkStep(s, a, held, work);
    assert Runs(s1, a) && s1.attempts[a].process == s.attempts[a].process;
    if work.Value? {
      var s2 := Step(s1, Cache(a, Replied));
      assert s2 == CacheStep(s1, a, held, work.json, Replied);
    }
  }

  lemma FinishedStays(s: State, a: nat, work: Outcome)
    requires a in s.attempts && s.attempts[a].pc.Finished?
    ensures Conclude(s, a, work) == s
  {
  }

  function AnswerOf(pc: Pc): Status { if pc.Finished? then pc.status else InProgress }

  /** The step machine, driven by one attempt alone, does to the key and answers exactly what Alone says. */
  lemma UndisturbedIsAlone(s: State, a: nat, id: string, alive: set<string>, answer: Registry,
                           reached: bool, work: Outcome)
    requires Inv(s) && a !in s.attempts && id in s.live
    requires s.cell.Some? && Inspect(s.cell.value, Process(id, s.live[id])).AskRegistry? ==>
               (answer == Dead <==> Inspect(s.cell.value, Process(id, s.live[id])).instanceId !in alive)
    ensures var me := Process(id, s.live[id]);
            var s' := Conclude(Claim(s, a, id, answer, if reached then Replied else Lost(false)), a, work);
            var call := Alone(s.cell, me, s.counters[me], alive, reached, work);
            && me in s'.counters && a in s'.attempts
            && s'.cell == call.cell && s'.counters[me] == call.counter
            && AnswerOf(s'.attempts[a].pc) == call.status
  {
    ClaimIsAlone(s, a, id, alive, answer, reached);
    var s' := Claim(s, a, id, answer, if reached then Replied else Lost(false));
    if s'.attempts[a].pc.Finished? {
      FinishedStays(s', a, work);
    } else {
      ConcludeIsAlone(s', a, s'.attempts[a].pc.held, work);
    }
  }

  /** The key as withIdempotency.ts drives it, command by command, for one process. */
  class IdempotencyKey {
    var value: Option<Stored>
    var attemptCounter: nat
    const me: Process

    constructor (me: Process)
      ensures value == None && attemptCounter == 0 && this.me == me
    {
      this.me := me;
      value, attemptCounter := None, 0;
    }

    method AcquireLock() returns (acquired: bool)
      modifies `value
      ensures value == SetNx(old(value), Processing(me)) && acquired == old(value).None?
    {
      acquired := value.None?;
      if acquired {
        value := Some(Processing(me));
      }
    }

    method StealLock(expected: Stored) returns (stolen: bool)
      modifies `value
      ensures value == StealIfStale(old(value), expected, Processing(me)) && stolen == (old(value) == Some(expected))
    {
      stolen := value == Some(expected);
      if stolen {
        value := Some(Processing(me));
      }
    }

    method WriteOver(v: Stored, held: bool) returns (written: bool)
      modifies `value
      ensures value == WriteIfOurs(old(value), Processing(me), v, held)
      ensures written == (old(value).None? || (held && old(value) == Some(Processing(me))))
    {
      written := value.None? || (held && value == Some(Processing(me)));
      if written {
        value := Some(v);
      }
    }

    method DeleteOwn(expected: Stored) returns (deleted: bool)
      modifies `value
      ensures value == DeleteIf(old(value), expected) && deleted == (old(value) == Some(expected))
    {
      deleted := value == Some(expected);
      if deleted {
        value := None;
      }
    }

    method ReleaseLock(held: bool)
      modifies `value
      ensures value == if held then DeleteIf(old(value), Processing(me)) else old(value)
    {
      if held {
        var _ := DeleteOwn(Processing(me));
      }
    }

    // `owned` means the work runs; `held` that the key is ours while it does.
    method AcquireOrSteal(alive: set<string>, reached: bool) returns (owned: bool, held: bool, status: Status)
      modifies `value
      ensures held == (reached && Free(old(value), me, alive)) && owned == (held || !reached)
      ensures value == if held then Some(Processing(me)) else old(value)
      ensures !owned ==> status == Alone(old(value), me, 0, alive, true, Null).status
    {
      owned, held, status := !reached, false, InProgress;
      if !reached {
        return;
      }
      held := AcquireLock();
      owned := held;
      if held {
        return;
      }
      var current := value.value;
      match Inspect(current, me) {
        case Answer(answer) => status := answer;
        case AskRegistry(id) =>
          if id !in alive {
            held := StealLock(current);
          }
        case Reclaim => held := StealLock(current);
      }
      owned := held;
    }

    method MarkIndeterminate(held: bool) returns (marker: Option<Stored>)
      modifies `value, `attemptCounter
      ensures attemptCounter == old(attemptCounter) + 1
      ensures value == WriteIfOurs(old(value), Processing(me), Indeterminate(me, attemptCounter), held)
      ensures marker.Some? ==> marker == value == Some(Indeterminate(me, attemptCounter))
    {
      attemptCounter := attemptCounter + 1;
      var written := WriteOver(Indeterminate(me, attemptCounter), held);
      marker := if written then value else None;
    }

    method WithIdempotency(alive: set<string>, reached: bool, work: Outcome) returns (status: Status, ran: bool)
      modifies this
      ensures Call(value, attemptCounter, status, ran) ==
              Alone(old(value), me, old(attemptCounter), alive, reached, work)
    {
      var held;
      ran, held, status := AcquireOrSteal(alive, reached);
      if !ran {
        return;
      }
      match work {
        case Value(json) =>
          var cached := WriteOver(Cached(json), held);
          if !cached {
            ReleaseLock(held);
          }
          status := Executed;
        case Null =>
          ReleaseLock(held);
          status := Failed;
        case Ambiguous =>
          var _ := MarkIndeterminate(held);
          status := Threw;
        case Error =>
          ReleaseLock(held);
          status := Threw;
      }
    }
  }
}
