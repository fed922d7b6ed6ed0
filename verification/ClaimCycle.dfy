/**
 The claim cycle's scan: which unleased phones an instance takes, with every Redis read free to answer or to
 throw and the number of its connections free to change between candidates.
 */
module ClaimCycle {
  import opened Wrappers
  import Rebalance

  type Phone = string
  type Instance = string

  datatype Reply<T> = Threw | Got(value: T)

  // What one candidate's turn in the scan finds, read by read.
  datatype Turn = Turn(
    id: Phone,
    draining: bool,
    leased: Reply<bool>,
    handoff: Reply<Option<Instance>>,
    size: nat,                        // handler.size when the cap is checked
    onCooldown: Reply<bool>,
    quarantined: Reply<bool>,
    paired: Reply<bool>,
    epoch: Reply<Option<nat>>         // what acquireLease brought
  )

  datatype Kind = Directed | Orphaned | Capped
  datatype Claim = Claim(id: Phone, epoch: nat, kind: Kind)

  // One cycle's constants.
  datatype Cycle = Cycle(me: Instance, saved: nat, live: nat, now: int, unclaimedGraceMs: int)

  // Of the stored phones, over the live instances that are not draining, taken as one when there are none.
  function Share(c: Cycle): nat {
    Rebalance.FairShare(c.saved, if c.live > 0 then c.live else 1)
  }

  datatype Scan = Scan(claimed: seq<Claim>, firstSeen: map<Phone, int>)

  function SeenAt(firstSeen: map<Phone, int>, id: Phone, now: int): map<Phone, int> {
    if id in firstSeen then firstSeen else firstSeen[id := now]
  }

  // Why this turn may claim its phone, once the lease was read as absent; None when it may not.
  function Right(t: Turn, c: Cycle, claimed: nat, firstSeen: int): Option<Kind> {
    if t.handoff.Threw? then None
    else if t.handoff.value.Some? then (if t.handoff.value.value == c.me then Some(Directed) else None)
    else
      var orphaned := c.now - firstSeen >= c.unclaimedGraceMs;
      if t.size + claimed >= Share(c) && !orphaned then None
      else if t.onCooldown != Got(false) || t.quarantined != Got(false) then None
      else Some(if orphaned then Orphaned else Capped)
  }

  function TurnStep(s: Scan, t: Turn, c: Cycle): Scan {
    if t.leased.Threw? then s
    else if t.leased.value then s.(firstSeen := s.firstSeen - {t.id})
    else
      var s1 := s.(firstSeen := SeenAt(s.firstSeen, t.id, c.now));
      var right := Right(t, c, |s.claimed|, s1.firstSeen[t.id]);
      if right.None? || t.paired != Got(true) || t.epoch.Threw? || t.epoch.value.None? then s1
      else Scan(s.claimed + [Claim(t.id, t.epoch.value.value, right.value)], s.firstSeen - {t.id})
  }

  // SIGTERM seen at the top of a turn ends the scan.
  function ScanAll(s: Scan, turns: seq<Turn>, c: Cycle): Scan
    decreases |turns|
  {
    if turns == [] || turns[0].draining then s else ScanAll(TurnStep(s, turns[0], c), turns[1..], c)
  }

  // ---- the cap ----

  function CappedIn(claims: seq<Claim>): nat {
    if claims == [] then 0 else CappedIn(claims[..|claims| - 1]) + if claims[|claims| - 1].kind.Capped? then 1 else 0
  }

  lemma {:induction false} CappedAreCounted(claims: seq<Claim>)
    ensures CappedIn(claims) == |set i | 0 <= i < |claims| && claims[i].kind.Capped?|
    decreases |claims|
  {
    var all := set i | 0 <= i < |claims| && claims[i].kind.Capped?;
    if claims == [] {
      assert all == {};
    } else {
      var n := |claims| - 1;
      CappedAreCounted(claims[..n]);
      var before := set i | 0 <= i < n && claims[..n][i].kind.Capped?;
      assert all == if claims[n].kind.Capped? then before + {n} else before;
    }
  }

  // Claims made under the cap at a place in the list that leaves room for them.
  ghost predicate UnderCap(claims: seq<Claim>, fairShare: nat, size: nat) {
    forall i | 0 <= i < |claims| && claims[i].kind.Capped? :: size + i < fairShare
  }

  lemma {:induction false} CappedAreFew(claims: seq<Claim>, fairShare: nat, size: nat)
    requires UnderCap(claims, fairShare, size)
    ensures CappedIn(claims) <= |claims|
    ensures CappedIn(claims) <= if fairShare > size then fairShare - size else 0
    decreases |claims|
  {
    if claims != [] {
      CappedAreFew(claims[..|claims| - 1], fairShare, size);
    }
  }

  lemma {:induction false} ScanStaysUnderCap(s: Scan, turns: seq<Turn>, c: Cycle, size: nat)
    requires UnderCap(s.claimed, Share(c), size) && forall t | t in turns :: size <= t.size
    ensures UnderCap(ScanAll(s, turns, c).claimed, Share(c), size)
    ensures s.claimed <= ScanAll(s, turns, c).claimed
    decreases |turns|
  {
    if turns != [] && !turns[0].draining {
      var s1 := TurnStep(s, turns[0], c);
      assert turns[0] in turns;
      assert forall t | t in turns[1..] :: t in turns;
      ScanStaysUnderCap(s1, turns[1..], c, size);
    }
  }

  /**
   The claims of one cycle that are neither directed nor of an orphan number at most fair share less the
   connections held, however those grow during the scan; and none at all at or above it.
   */
  lemma FairShareHolds(turns: seq<Turn>, c: Cycle, firstSeen: map<Phone, int>, size: nat)
    requires forall t | t in turns :: size <= t.size
    ensures var claimed := ScanAll(Scan([], firstSeen), turns, c).claimed;
            |set i | 0 <= i < |claimed| && claimed[i].kind.Capped?| <= if Share(c) > size then Share(c) - size else 0
  {
    var claimed := ScanAll(Scan([], firstSeen), turns, c).claimed;
    ScanStaysUnderCap(Scan([], firstSeen), turns, c, size);
    CappedAreFew(claimed, Share(c), size);
    CappedAreCounted(claimed);
  }

  // ---- what a claim needs ----

  // Nothing was in the way of this claim, whatever its kind.
  ghost predicate Justified(claim: Claim, t: Turn, c: Cycle) {
    && t.id == claim.id && t.leased == Got(false) && t.paired == Got(true) && t.epoch == Got(Some(claim.epoch))
    && (claim.kind.Directed? <==> t.handoff == Got(Some(c.me)))
    && (!claim.kind.Directed? ==> t.handoff == Got(None) && t.onCooldown == Got(false) && t.quarantined == Got(false))
  }

  /**
   A turn adds a claim only of a phone it read as unleased and paired and won the lease of; one named to another
   instance is never taken, one on cooldown or in quarantine only when handed to this instance by name.
   */
  lemma ClaimsAreJustified(s: Scan, t: Turn, c: Cycle)
    ensures var s' := TurnStep(s, t, c);
            s'.claimed == s.claimed || (|s'.claimed| == |s.claimed| + 1 && Justified(s'.claimed[|s.claimed|], t, c))
    ensures t.leased == Got(false) && t.paired == Got(true) && t.handoff == Got(Some(c.me))
                && t.epoch.Got? && t.epoch.value.Some?
            ==> TurnStep(s, t, c).claimed == s.claimed + [Claim(t.id, t.epoch.value.value, Directed)]
  {
  }

  // When the phone was first seen without a lease, this turn included.
  function ClockOf(s: Scan, t: Turn, c: Cycle): int {
    if t.id in s.firstSeen then s.firstSeen[t.id] else c.now
  }

  predicate IsOrphaned(s: Scan, t: Turn, c: Cycle) {
    c.now - ClockOf(s, t, c) >= c.unclaimedGraceMs
  }

  /**
   And it adds one exactly when the phone was read as unleased and paired, its lease was won, and it is either
   handed to this instance by name, or named to nobody, off cooldown and out of quarantine, with room under the
   cap or the grace over. The clock runs on for a phone found unleased and not claimed, and ends for one that is
   leased or claimed; no other phone's moves.
   */
  lemma ClaimedIff(s: Scan, t: Turn, c: Cycle)
    ensures var mine := t.handoff == Got(Some(c.me));
            var free := t.handoff == Got(None) && t.onCooldown == Got(false) && t.quarantined == Got(false)
                        && (t.size + |s.claimed| < Share(c) || IsOrphaned(s, t, c));
            var claims := t.leased == Got(false) && t.paired == Got(true) && t.epoch.Got? && t.epoch.value.Some?
                          && (mine || free);
            var s' := TurnStep(s, t, c);
            && (s'.claimed != s.claimed <==> claims)
            && (claims ==> s'.claimed == s.claimed + [Claim(t.id, t.epoch.value.value,
                                                            if mine then Directed
                                                            else if IsOrphaned(s, t, c) then Orphaned else Capped)])
            && (t.leased == Got(true) || claims ==> t.id !in s'.firstSeen)
            && (t.leased == Got(false) && !claims ==> t.id in s'.firstSeen && s'.firstSeen[t.id] == ClockOf(s, t, c))
            && (t.leased.Threw? ==> s' == s)
            && (forall id | id != t.id :: (id in s'.firstSeen <==> id in s.firstSeen)
                                          && (id in s.firstSeen ==> s'.firstSeen[id] == s.firstSeen[id]))
  {
  }

  /** The fair share is the stored phones over the live instances, rounded up; one instance, if none is live. */
  lemma ShareIsCeiling(c: Cycle)
    ensures var n := if c.live > 0 then c.live else 1;
            Share(c) * n >= c.saved && (c.saved > 0 ==> (Share(c) - 1) * n < c.saved)
  {
  }

  // Nothing is in the way of the phone.
  predicate IsFree(t: Turn) {
    && !t.draining && t.leased == Got(false) && t.paired == Got(true) && t.epoch.Got? && t.epoch.value.Some?
    && t.handoff == Got(None) && t.onCooldown == Got(false) && t.quarantined == Got(false)
  }

  /**
   An instance holding `size` connections takes every free phone of the scan, in order, as long as they all fit
   under its share; so a lone one starting up takes everything that is stored.
   */
  lemma {:induction false} FreePhonesAreTaken(s: Scan, turns: seq<Turn>, c: Cycle, size: nat)
    requires forall t | t in turns :: IsFree(t) && t.size == size
    requires size + |s.claimed| + |turns| <= Share(c)
    ensures var claimed := ScanAll(s, turns, c).claimed;
            && |claimed| == |s.claimed| + |turns| && s.claimed <= claimed
            && forall i | 0 <= i < |turns| ::
                 var claim := claimed[|s.claimed| + i];
                 claim.id == turns[i].id && turns[i].epoch == Got(Some(claim.epoch))
    decreases |turns|
  {
    if turns != [] {
      assert turns[0] in turns && forall t | t in turns[1..] :: t in turns;
      FreePhonesAreTaken(TurnStep(s, turns[0], c), turns[1..], c, size);
      assert forall i | 1 <= i < |turns| :: turns[i] == turns[1..][i - 1];
    }
  }

  lemma LoneInstanceTakesAll(turns: seq<Turn>, c: Cycle, firstSeen: map<Phone, int>)
    requires c.live <= 1 && |turns| <= c.saved && forall t | t in turns :: IsFree(t) && t.size == 0
    ensures |ScanAll(Scan([], firstSeen), turns, c).claimed| == |turns|
  {
    ShareIsCeiling(c);
    FreePhonesAreTaken(Scan([], firstSeen), turns, c, 0);
  }

  /** A scan is its turns one by one, up to the first that finds the instance draining. */
  lemma {:induction false} ScanIsTurnByTurn(s: Scan, before: seq<Turn>, rest: seq<Turn>, c: Cycle)
    requires forall t | t in before :: !t.draining
    ensures ScanAll(s, before + rest, c) == ScanAll(ScanAll(s, before, c), rest, c)
    ensures rest != [] && rest[0].draining ==> ScanAll(s, before + rest, c) == ScanAll(s, before, c)
    decreases |before|
  {
    if before == [] {
      assert before + rest == rest;
    } else {
      assert before[0] in before && forall t | t in before[1..] :: t in before;
      assert (before + rest)[1..] == before[1..] + rest;
      ScanIsTurnByTurn(TurnStep(s, before[0], c), before[1..], rest, c);
    }
  }

  // ---- orphans ----

  // What happens to the clocks over many cycles: turns of their scans, and phones dropped at their start
  // because they are no longer stored or have a local connection.
  datatype Look = Looked(turn: Turn, cycle: Cycle, claimed: seq<Claim>) | Forgotten(id: Phone)

  function Clocks(looks: seq<Look>): map<Phone, int> {
    if looks == [] then map[]
    else
      var before := Clocks(looks[..|looks| - 1]);
      match looks[|looks| - 1]
      case Looked(t, c, claimed) => TurnStep(Scan(claimed, before), t, c).firstSeen
      case Forgotten(id) => before - {id}
  }

  predicate SawLeased(l: Look, id: Phone) {
    l.Looked? && l.turn.id == id && l.turn.leased == Got(true)
  }

  // A look that started this phone's clock, with none since that found it leased.
  ghost predicate UnleasedSince(looks: seq<Look>, id: Phone, at: int) {
    exists k | 0 <= k < |looks| ::
      looks[k].Looked? && looks[k].turn.id == id && looks[k].turn.leased == Got(false) && looks[k].cycle.now == at
      && forall j | k <= j < |looks| :: !SawLeased(looks[j], id)
  }

  lemma ClockStep(before: map<Phone, int>, t: Turn, c: Cycle, claimed: seq<Claim>, id: Phone)
    ensures var after := TurnStep(Scan(claimed, before), t, c).firstSeen;
            id in after ==> (id in before && after[id] == before[id] && !(t.id == id && t.leased == Got(true)))
                            || (t.id == id && t.leased == Got(false) && after[id] == c.now)
  {
  }

  /**
   A phone's clock shows the time of a cycle that found it without a lease, and no look at it since has found
   one: so a phone is taken as an orphan only after going unleased, as far as anybody looked, for the grace.
   */
  lemma {:induction false} OrphanClockIsHonest(looks: seq<Look>, id: Phone)
    ensures id in Clocks(looks) ==> UnleasedSince(looks, id, Clocks(looks)[id])
    decreases |looks|
  {
    if looks != [] {
      var init, last := looks[..|looks| - 1], looks[|looks| - 1];
      OrphanClockIsHonest(init, id);
      var before, after := Clocks(init), Clocks(looks);
      if last.Looked? {
        ClockStep(before, last.turn, last.cycle, last.claimed, id);
      }
      if id in after {
        if id in before && after[id] == before[id] && !SawLeased(last, id) {
          var k :| 0 <= k < |init| && init[k].Looked? && init[k].turn.id == id && init[k].turn.leased == Got(false)
                   && init[k].cycle.now == before[id] && forall j | k <= j < |init| :: !SawLeased(init[j], id);
          assert looks[k] == init[k] && forall j | 0 <= j < |init| :: looks[j] == init[j];
        } else {
          assert looks[|init|] == last && last.turn.leased == Got(false) && after[id] == last.cycle.now;
        }
      }
    }
  }

  // ---- the loop ----

  method ScanCandidates(turns: seq<Turn>, c: Cycle, firstSeen: map<Phone, int>)
      returns (claimed: seq<Claim>, seen: map<Phone, int>)
    ensures Scan(claimed, seen) == ScanAll(Scan([], firstSeen), turns, c)
  {
    claimed, seen := [], firstSeen;
    var i := 0;
    assert turns[0..] == turns;
    while i < |turns| && !turns[i].draining
      invariant 0 <= i <= |turns|
      invariant ScanAll(Scan([], firstSeen), turns, c) == ScanAll(Scan(claimed, seen), turns[i..], c)
    {
      var t := turns[i];
      assert turns[i..][0] == t && turns[i..][1..] == turns[i + 1..];
      ghost var was := Scan(claimed, seen);
      claimed, seen := OneTurn(claimed, seen, t, c);
      i := i + 1;
    }
  }

  // The body of the scan, each `continue` and each throw ending it.
  method OneTurn(claimed0: seq<Claim>, seen0: map<Phone, int>, t: Turn, c: Cycle)
      returns (claimed: seq<Claim>, seen: map<Phone, int>)
    ensures Scan(claimed, seen) == TurnStep(Scan(claimed0, seen0), t, c)
  {
    claimed, seen := claimed0, seen0;
    if t.leased.Threw? {
      return;
    }
    if t.leased.value {
      seen := seen - {t.id};
      return;
    }
    if t.id !in seen {
      seen := seen[t.id := c.now];
    }
    var orphaned := c.now - seen[t.id] >= c.unclaimedGraceMs;
    if t.handoff.Threw? || (t.handoff.value.Some? && t.handoff.value.value != c.me) {
      return;
    }
    var directedAtMe := t.handoff.value == Some(c.me);
    var fairShare := Share(c);
    if !directedAtMe && t.size + |claimed| >= fairShare && !orphaned {
      return;
    }
    if !directedAtMe && t.onCooldown != Got(false) {
      return;
    }
    if !directedAtMe && t.quarantined != Got(false) {
      return;
    }
    if t.paired != Got(true) {
      return;
    }
    if t.epoch.Threw? || t.epoch.value.None? {
      return;
    }
    seen := seen - {t.id};
    claimed := claimed + [Claim(t.id, t.epoch.value.value,
                                if directedAtMe then Directed else if orphaned then Orphaned else Capped)];
    assert seen == seen0 - {t.id};
  }
}
