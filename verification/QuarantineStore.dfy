/**
 The strike count that keeps a failing phone from being claimed again at once. Unlike the send-stall key it is a
 plain GET and SET, so strikes recorded between the two are overwritten, and a clear between them is undone.
 */
module QuarantineStore {
  import Store = SendStallStore

  type OpId = nat

  // 0 strikes stands for no entry, and for one that does not parse.
  datatype State = State(strikes: nat, writing: map<OpId, nat>, recorded: nat)

  // Wipe: clearQuarantine, or the entry's expiry.
  datatype Event = Get(op: OpId) | Set(op: OpId) | Wipe

  function Step(s: State, e: Event): State {
    match e
    case Get(op) => s.(writing := s.writing[op := s.strikes])
    case Set(op) =>
      if op in s.writing then State(s.writing[op] + 1, s.writing - {op}, s.recorded + 1) else s
    case Wipe => s.(strikes := 0)
  }

  function Run(s: State, es: seq<Event>): State
    decreases |es|
  {
    if es == [] then s else Run(Step(s, es[0]), es[1..])
  }

  // Every SET of the run finds the count its GET had read.
  predicate Undisturbed(s: State, es: seq<Event>)
    decreases |es|
  {
    es == [] ||
    ((es[0].Set? && es[0].op in s.writing ==> s.writing[es[0].op] == s.strikes) && Undisturbed(Step(s, es[0]), es[1..]))
  }

  // Nothing read is more than what is stored, and nothing stored is more than was struck.
  ghost predicate Bounded(s: State, base: nat) {
    s.strikes <= base + s.recorded && forall op | op in s.writing :: s.writing[op] <= base + s.recorded
  }

  lemma {:induction false} NeverOvercounts(s: State, es: seq<Event>, base: nat)
    requires Bounded(s, base)
    ensures Bounded(Run(s, es), base)
    decreases |es|
  {
    if es != [] {
      NeverOvercounts(Step(s, es[0]), es[1..], base);
    }
  }

  lemma {:induction false} ShortStaysShort(s: State, es: seq<Event>, base: nat)
    requires Bounded(s, base) && s.strikes < base + s.recorded && Wipe !in es
    requires forall op | op in s.writing :: s.writing[op] < base + s.recorded
    ensures Run(s, es).strikes < base + Run(s, es).recorded
    decreases |es|
  {
    if es != [] {
      ShortStaysShort(Step(s, es[0]), es[1..], base);
    }
  }

  /**
   No strike of a run without a wipe is lost exactly when every SET in it still finds the count its own GET read:
   no other recordStrike completed in between.
   */
  lemma {:induction false} ExactIffUndisturbed(s: State, es: seq<Event>, base: nat)
    requires Bounded(s, base) && s.strikes == base + s.recorded && Wipe !in es
    ensures Run(s, es).strikes == base + Run(s, es).recorded <==> Undisturbed(s, es)
    decreases |es|
  {
    if es != [] {
      var s1 := Step(s, es[0]);
      if es[0].Set? && es[0].op in s.writing && s.writing[es[0].op] != s.strikes {
        ShortStaysShort(s1, es[1..], base);
      } else {
        ExactIffUndisturbed(s1, es[1..], base);
      }
    }
  }

  function Strike(op: OpId): seq<Event> { [Get(op), Set(op)] }

  function Strikes(op: OpId, n: nat): seq<Event> {
    if n == 0 then [] else Strike(op) + Strikes(op, n - 1)
  }

  lemma {:induction false} StrikesCount(s: State, op: OpId, n: nat, last: seq<Event>)
    requires op !in s.writing
    ensures Run(s, Strikes(op, n) + last) == Run(State(s.strikes + n, s.writing, s.recorded + n), last)
    decreases n
  {
    var all := Strikes(op, n) + last;
    if n == 0 {
      assert all == last;
    } else {
      var rest := Strikes(op, n - 1) + last;
      assert all == [Get(op)] + ([Set(op)] + rest);
      assert all[1..] == [Set(op)] + rest && all[1..][1..] == rest;
      var s1 := Step(s, Get(op));
      var s2 := Step(s1, Set(op));
      assert s2 == State(s.strikes + 1, s.writing, s.recorded + 1);
      StrikesCount(s2, op, n - 1, last);
    }
  }

  /** One late writer is enough to undo any number of strikes recorded since its read, not only one. */
  lemma LateWriterErases(s: State, late: OpId, op: OpId, n: nat)
    requires late !in s.writing && op !in s.writing && late != op
    ensures var s' := Run(s, [Get(late)] + (Strikes(op, n) + [Set(late)]));
            s'.strikes == s.strikes + 1 && s'.recorded == s.recorded + n + 1
  {
    var es := [Get(late)] + (Strikes(op, n) + [Set(late)]);
    var s1 := Step(s, Get(late));
    assert es[1..] == Strikes(op, n) + [Set(late)];
    StrikesCount(s1, op, n, [Set(late)]);
    var s2 := State(s1.strikes + n, s1.writing, s1.recorded + n);
    assert [Set(late)][1..] == [];
    assert Run(s2, [Set(late)]) == Run(Step(s2, Set(late)), []);
  }

  /** A clear that falls between a recordStrike's GET and its SET clears nothing: every strike is back, and one more. */
  lemma WipedStrikesReturn(s: State, late: OpId, op: OpId, n: nat)
    requires op !in s.writing
    ensures Run(s, Strikes(op, n) + [Get(late), Wipe, Set(late)]).strikes == s.strikes + n + 1
  {
    var last := [Get(late), Wipe, Set(late)];
    StrikesCount(s, op, n, last);
    var s1 := State(s.strikes + n, s.writing, s.recorded + n);
    var s2 := Step(s1, Get(late));
    var s3 := Step(s2, Wipe);
    assert last[1..] == [Wipe, Set(late)] && [Wipe, Set(late)][1..] == [Set(late)] && [Set(late)][1..] == [];
    assert Run(s2, [Wipe, Set(late)]) == Run(s3, [Set(late)]);
    assert Run(s3, [Set(late)]) == Run(Step(s3, Set(late)), []);
  }

  /** A strike after a clear begins again from one. */
  lemma ClearStartsOver(s: State, op: OpId)
    ensures Step(Step(Step(s, Wipe), Get(op)), Set(op)).strikes == 1
  {
  }

  // ---- the backoff ----

  function BackoffMs(strikes: nat, baseMs: nat, maxMs: nat): int {
    Store.Min(baseMs * Store.Pow2(Store.Min(Store.Max(strikes - 1, 0), Store.MAX_EXPONENT)), maxMs)
  }

  function Doubled(strikes: nat, baseMs: nat, maxMs: nat): int
    requires strikes >= 1
  {
    Store.Min(baseMs * Store.Pow2(strikes - 1), maxMs)
  }

  lemma TimesGrows(a: nat, b: nat, baseMs: nat)
    requires a <= b
    ensures baseMs * Store.Pow2(a) <= baseMs * Store.Pow2(b)
  {
    Store.Pow2Grows(a, b);
  }

  /** The exponent's clamp is never felt exactly when base and cap are such that the cap has taken over by then. */
  lemma ClampIsUnfeltIff(baseMs: nat, maxMs: nat)
    requires baseMs > 0
    ensures (forall strikes | strikes >= 1 :: BackoffMs(strikes, baseMs, maxMs) == Doubled(strikes, baseMs, maxMs))
            <==> baseMs * Store.Pow2(Store.MAX_EXPONENT) >= maxMs
  {
    if baseMs * Store.Pow2(Store.MAX_EXPONENT) >= maxMs {
      forall strikes | strikes >= 1
        ensures BackoffMs(strikes, baseMs, maxMs) == Doubled(strikes, baseMs, maxMs)
      {
        if strikes - 1 > Store.MAX_EXPONENT {
          TimesGrows(Store.MAX_EXPONENT, strikes - 1, baseMs);
        }
      }
    } else {
      var strikes := Store.MAX_EXPONENT + 2;
      assert baseMs * Store.Pow2(strikes - 1) == 2 * (baseMs * Store.Pow2(Store.MAX_EXPONENT));
      assert BackoffMs(strikes, baseMs, maxMs) != Doubled(strikes, baseMs, maxMs);
    }
  }
}
