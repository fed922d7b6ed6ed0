/**
 Shedding load: which instance gives up a connection, to whom, and what a run of such moves does to the
 cluster. `loads` are the live instances' connection counts, taken to be accurate; `saved` is how many phones
 the cluster stores.
 */
module Rebalance {
  import opened Wrappers

  const REBALANCE_FORCE_FACTOR := 2

  // Math.ceil(saved / liveCount)
  function FairShare(saved: nat, liveCount: nat): (f: nat)
    requires liveCount > 0
    ensures (f - 1) * liveCount < saved <= f * liveCount || (saved == 0 && f == 0)
  {
    var f := (saved + liveCount - 1) / liveCount;
    assert (saved + liveCount - 1) == f * liveCount + (saved + liveCount - 1) % liveCount;
    assert (f - 1) * liveCount == f * liveCount - liveCount;
    f
  }

  // The peer with the fewest connections, the earliest of several.
  ghost predicate IsTarget(loads: seq<nat>, me: nat, t: nat) {
    && me < |loads| && t < |loads| && t != me
    && (forall j | 0 <= j < |loads| && j != me :: loads[t] <= loads[j])
    && (forall j | 0 <= j < t && j != me :: loads[t] < loads[j])
  }

  predicate WantsToShed(loads: seq<nat>, me: nat, saved: nat, tolerance: nat) {
    me < |loads| && |loads| > 1 && loads[me] > FairShare(saved, |loads|) + tolerance
  }

  // "Moving must actually improve balance": the guard before a victim is picked.
  predicate Improves(loads: seq<nat>, me: nat, t: nat) {
    me < |loads| && t < |loads| && !(loads[t] + 1 >= loads[me])
  }

  ghost predicate Enabled(loads: seq<nat>, me: nat, t: nat, saved: nat, tolerance: nat) {
    WantsToShed(loads, me, saved, tolerance) && IsTarget(loads, me, t) && Improves(loads, me, t)
  }

  function Moved(loads: seq<nat>, me: nat, t: nat): seq<nat>
    requires me < |loads| && t < |loads| && t != me && loads[me] > 0
  {
    Less(loads, me)[t := loads[t] + 1]
  }

  function Less(loads: seq<nat>, me: nat): (r: seq<nat>)
    requires me < |loads| && loads[me] > 0
    ensures |r| == |loads| && forall j | 0 <= j < |loads| :: r[j] == if j == me then loads[j] - 1 else loads[j]
  {
    loads[me := loads[me] - 1]
  }

  // ---- sums over the cluster ----

  function Total(loads: seq<nat>, f: nat -> int): int {
    if loads == [] then 0 else f(loads[0]) + Total(loads[1..], f)
  }

  function Itself(x: nat): int { x }
  function Square(x: nat): int { x * x }
  function Above(fair: nat): nat -> int { x => if x > fair then x - fair else 0 }

  lemma {:induction false} TotalUpdate(loads: seq<nat>, i: nat, v: nat, f: nat -> int)
    requires i < |loads|
    ensures Total(loads[i := v], f) == Total(loads, f) - f(loads[i]) + f(v)
  {
    var after := loads[i := v];
    if i == 0 {
      assert after[1..] == loads[1..];
    } else {
      assert after[1..] == loads[1..][i - 1 := v];
      TotalUpdate(loads[1..], i - 1, v, f);
    }
  }

  lemma TotalMoved(loads: seq<nat>, me: nat, t: nat, f: nat -> int)
    requires me < |loads| && t < |loads| && t != me && loads[me] > 0
    ensures Total(Moved(loads, me, t), f) ==
            Total(loads, f) - f(loads[me]) + f(loads[me] - 1) - f(loads[t]) + f(loads[t] + 1)
  {
    var mid := Less(loads, me);
    TotalUpdate(loads, me, loads[me] - 1, f);
    assert Total(mid, f) == Total(loads, f) - f(loads[me]) + f(loads[me] - 1) && mid[t] == loads[t];
    TotalUpdate(mid, t, loads[t] + 1, f);
  }

  lemma {:induction false} TotalAtLeast(loads: seq<nat>, fair: nat, me: nat)
    requires forall j | 0 <= j < |loads| :: loads[j] >= if j == me then fair + 1 else fair
    ensures Total(loads, Itself) >= |loads| * fair + (if me < |loads| then 1 else 0)
    decreases |loads|
  {
    if loads != [] {
      TotalAtLeast(loads[1..], fair, if me == 0 then |loads| else me - 1);
      assert |loads| * fair == fair + (|loads| - 1) * fair;
    }
  }

  lemma {:induction false} TotalNonNegative(loads: seq<nat>, fair: nat)
    ensures Total(loads, Above(fair)) >= 0
  {
    if loads != [] {
      TotalNonNegative(loads[1..], fair);
    }
  }

  // ---- one move ----

  // Somebody is strictly below fair share whenever somebody is above it.
  lemma TargetIsBelowFair(loads: seq<nat>, me: nat, t: nat, saved: nat, tolerance: nat)
    requires WantsToShed(loads, me, saved, tolerance) && IsTarget(loads, me, t) && Total(loads, Itself) <= saved
    ensures loads[t] < FairShare(saved, |loads|)
  {
    var fair := FairShare(saved, |loads|);
    if loads[t] >= fair {
      TotalAtLeast(loads, fair, me);
      assert false;
    }
  }

  /**
   With accurate counts an instance above its share is never held back by the improvement guard; and its move
   conserves the connections, strictly lowers the sum of squared loads and the excess over fair share, and
   leaves the receiver within fair share.
   */
  lemma EveryMoveImproves(loads: seq<nat>, me: nat, t: nat, saved: nat, tolerance: nat)
    requires WantsToShed(loads, me, saved, tolerance) && IsTarget(loads, me, t) && Total(loads, Itself) <= saved
    ensures Improves(loads, me, t) && loads[me] > 0
    ensures var after, fair := Moved(loads, me, t), FairShare(saved, |loads|);
            && |after| == |loads| && Total(after, Itself) == Total(loads, Itself)
            && Total(after, Square) <= Total(loads, Square) - 2
            && Total(after, Above(fair)) == Total(loads, Above(fair)) - 1
            && after[t] <= fair
  {
    TargetIsBelowFair(loads, me, t, saved, tolerance);
    TotalMoved(loads, me, t, Itself);
    TotalMoved(loads, me, t, Square);
    TotalMoved(loads, me, t, Above(FairShare(saved, |loads|)));
    SquaresShrink(loads[me], loads[t]);
  }

  lemma SquaresShrink(a: nat, b: nat)
    requires a >= b + 2
    ensures Square(a - 1) + Square(b + 1) <= Square(a) + Square(b) - 2
  {
  }

  // The least loaded of the first n instances other than `me`, the earliest of several.
  function FirstLeast(loads: seq<nat>, me: nat, n: nat): (t: Option<nat>)
    requires n <= |loads|
    ensures t.None? <==> n == 0 || (n == 1 && me == 0)
    ensures t.Some? ==>
              && t.value < n && t.value != me
              && (forall j | 0 <= j < n && j != me :: loads[t.value] <= loads[j])
              && (forall j | 0 <= j < t.value && j != me :: loads[t.value] < loads[j])
  {
    if n == 0 then None
    else
      var t := FirstLeast(loads, me, n - 1);
      if n - 1 == me then t
      else if t.None? || loads[n - 1] < loads[t.value] then Some(n - 1) else t
  }

  function TargetOf(loads: seq<nat>, me: nat): (t: nat)
    requires me < |loads| && |loads| > 1
    ensures IsTarget(loads, me, t)
  {
    FirstLeast(loads, me, |loads|).value
  }

  /** The cluster is at rest, nobody having a move, exactly when every load is within fair share plus tolerance. */
  lemma RestIffBalanced(loads: seq<nat>, saved: nat, tolerance: nat)
    requires |loads| > 1 && Total(loads, Itself) <= saved
    ensures (forall me: nat, t: nat :: !Enabled(loads, me, t, saved, tolerance))
       <==> (forall me | 0 <= me < |loads| :: loads[me] <= FairShare(saved, |loads|) + tolerance)
  {
    if me :| 0 <= me < |loads| && loads[me] > FairShare(saved, |loads|) + tolerance {
      var t := TargetOf(loads, me);
      EveryMoveImproves(loads, me, t, saved, tolerance);
      assert Enabled(loads, me, t, saved, tolerance);
    }
  }

  // ---- runs of moves ----

  datatype Move = Move(sender: nat, target: nat)

  ghost predicate AllEnabled(loads: seq<nat>, moves: seq<Move>, saved: nat, tolerance: nat)
    decreases |moves|
  {
    moves == [] ||
    (Enabled(loads, moves[0].sender, moves[0].target, saved, tolerance)
     && AllEnabled(Moved(loads, moves[0].sender, moves[0].target), moves[1..], saved, tolerance))
  }

  function AfterMoves(loads: seq<nat>, moves: seq<Move>): seq<nat>
    decreases |moves|
  {
    if moves == [] then loads
    else
      var m := moves[0];
      if m.sender < |loads| && m.target < |loads| && m.sender != m.target && loads[m.sender] > 0
      then AfterMoves(Moved(loads, m.sender, m.target), moves[1..]) else loads
  }

  /**
   Rebalancing comes to rest: a run has no more moves than the connections above fair share it starts with,
   each move taking away exactly one, whoever makes it.
   */
  lemma {:induction false} MovesAreBounded(loads: seq<nat>, moves: seq<Move>, saved: nat, tolerance: nat)
    requires Total(loads, Itself) <= saved && AllEnabled(loads, moves, saved, tolerance) && |loads| > 1
    ensures var after, fair := AfterMoves(loads, moves), FairShare(saved, |loads|);
            && |after| == |loads| && Total(after, Itself) == Total(loads, Itself)
            && Total(after, Above(fair)) == Total(loads, Above(fair)) - |moves|
            && |moves| <= Total(loads, Above(fair))
    decreases |moves|
  {
    TotalNonNegative(loads, FairShare(saved, |loads|));
    if moves != [] {
      var m := moves[0];
      EveryMoveImproves(loads, m.sender, m.target, saved, tolerance);
      MovesAreBounded(Moved(loads, m.sender, m.target), moves[1..], saved, tolerance);
    }
  }

  /** And there is no ping-pong: an instance within fair share, as every receiver is, never becomes a sender. */
  lemma {:induction false} ReceiversNeverShed(loads: seq<nat>, moves: seq<Move>, saved: nat,
                                              tolerance: nat, i: nat, k: nat)
    requires Total(loads, Itself) <= saved && AllEnabled(loads, moves, saved, tolerance) && |loads| > 1
    requires i < |loads| && loads[i] <= FairShare(saved, |loads|) && k < |moves|
    ensures moves[k].sender != i
    decreases |moves|
  {
    var m := moves[0];
    EveryMoveImproves(loads, m.sender, m.target, saved, tolerance);
    if k > 0 {
      ReceiversNeverShed(Moved(loads, m.sender, m.target), moves[1..], saved, tolerance, i, k - 1);
    }
  }

  // ---- the cycle's decision ----

  datatype Peer = Peer(id: string, connectionCount: nat, draining: bool)
  datatype Clock = Clock(sinceRelease: int, releaseIntervalMs: int, claimedBefore: bool,
                         sinceClaim: int, unclaimedGraceMs: int)
  datatype Decision = Nothing | Shed(target: string, forced: bool)

  function LivePeers(instances: seq<Peer>, me: string): (r: seq<Peer>)
    ensures forall p :: p in r <==> p in instances && p.id != me && !p.draining
  {
    if instances == [] then []
    else if instances[0].id != me && !instances[0].draining then [instances[0]] + LivePeers(instances[1..], me)
    else LivePeers(instances[1..], me)
  }

  function LoadsOf(peers: seq<Peer>, myCount: nat): seq<nat> {
    [myCount] + seq(|peers|, i requires 0 <= i < |peers| => peers[i].connectionCount)
  }

  // peers.reduce(...): the accumulator is replaced only by a strictly smaller count.
  method PickTarget(peers: seq<Peer>, myCount: nat) returns (k: nat)
    requires peers != []
    ensures k < |peers| && IsTarget(LoadsOf(peers, myCount), 0, k + 1)
  {
    k := 0;
    for i := 1 to |peers|
      invariant k < i
      invariant forall j | 0 <= j < i :: peers[k].connectionCount <= peers[j].connectionCount
      invariant forall j | 0 <= j < k :: peers[k].connectionCount < peers[j].connectionCount
    {
      if peers[i].connectionCount < peers[k].connectionCount {
        k := i;
      }
    }
    ghost var loads := LoadsOf(peers, myCount);
    assert forall j | 1 <= j < |loads| :: loads[j] == peers[j - 1].connectionCount;
  }

  predicate Paused(enabled: bool, draining: bool, redisDegraded: bool, clock: Clock) {
    || !enabled || draining || redisDegraded || clock.sinceRelease < clock.releaseIntervalMs
    || (clock.claimedBefore && clock.sinceClaim < clock.unclaimedGraceMs)
  }

  lemma TargetIsUnique(loads: seq<nat>, me: nat, t: nat, u: nat)
    requires IsTarget(loads, me, t) && IsTarget(loads, me, u)
    ensures t == u
  {
    assert loads[t] <= loads[u] && loads[u] <= loads[t];
    assert t >= u && u >= t;
  }

  // What the decision compares is what the model speaks of.
  lemma ChosenPeer(peers: seq<Peer>, myCount: nat, k: nat, saved: nat, tolerance: nat)
    requires k < |peers| && IsTarget(LoadsOf(peers, myCount), 0, k + 1)
    ensures var loads := LoadsOf(peers, myCount);
            && |loads| == |peers| + 1 && TargetOf(loads, 0) == k + 1
            && (WantsToShed(loads, 0, saved, tolerance) <==> myCount > FairShare(saved, |peers| + 1) + tolerance)
            && (Improves(loads, 0, k + 1) <==> peers[k].connectionCount + 1 < myCount)
  {
    var loads := LoadsOf(peers, myCount);
    TargetIsUnique(loads, 0, k + 1, TargetOf(loads, 0));
    assert loads[0] == myCount && loads[k + 1] == peers[k].connectionCount;
  }

  /**
   runRebalanceCycle up to picking the victim: it sheds exactly when nothing pauses it, this instance is over
   its share and tolerance, and moving to the least loaded live peer would improve the balance.
   */
  method DecideRebalance(enabled: bool, draining: bool, redisDegraded: bool, clock: Clock,
                         instances: seq<Peer>, me: string,
                         saved: nat, myCount: nat, tolerance: nat) returns (d: Decision)
    ensures Paused(enabled, draining, redisDegraded, clock) ==> d == Nothing
    ensures !Paused(enabled, draining, redisDegraded, clock) ==>
              d == Decided(LivePeers(instances, me), saved, myCount, tolerance)
  {
    if !enabled || draining || redisDegraded || clock.sinceRelease < clock.releaseIntervalMs {
      return Nothing;
    }
    if clock.claimedBefore && clock.sinceClaim < clock.unclaimedGraceMs {
      return Nothing;
    }
    d := DecideAmong(LivePeers(instances, me), saved, myCount, tolerance);
  }

  function Decided(peers: seq<Peer>, saved: nat, myCount: nat, tolerance: nat): Decision {
    var loads := LoadsOf(peers, myCount);
    if WantsToShed(loads, 0, saved, tolerance) && Improves(loads, 0, TargetOf(loads, 0))
    then Shed(peers[TargetOf(loads, 0) - 1].id, myCount > FairShare(saved, |loads|) * REBALANCE_FORCE_FACTOR)
    else Nothing
  }

  method DecideAmong(peers: seq<Peer>, saved: nat, myCount: nat, tolerance: nat) returns (d: Decision)
    ensures d == Decided(peers, saved, myCount, tolerance)
  {
    if |peers| == 0 {
      return Nothing;
    }
    var fairShare := FairShare(saved, |peers| + 1);
    if myCount <= fairShare + tolerance {
      return Nothing;
    }
    var k := PickTarget(peers, myCount);
    ChosenPeer(peers, myCount, k, saved, tolerance);
    if peers[k].connectionCount + 1 >= myCount {
      return Nothing;
    }
    d := Shed(peers[k].id, myCount > fairShare * REBALANCE_FORCE_FACTOR);
  }

  // The first of the peers that hold the fewest connections.
  ghost predicate IsLeastLoaded(peers: seq<Peer>, k: nat) {
    && k < |peers| && (forall j | 0 <= j < |peers| :: peers[k].connectionCount <= peers[j].connectionCount)
    && (forall j | 0 <= j < k :: peers[k].connectionCount < peers[j].connectionCount)
  }

  lemma LeastLoadedIsTarget(peers: seq<Peer>, myCount: nat, k: nat)
    requires k < |peers|
    ensures IsLeastLoaded(peers, k) <==> IsTarget(LoadsOf(peers, myCount), 0, k + 1)
  {
    var loads := LoadsOf(peers, myCount);
    assert forall j | 0 <= j < |peers| :: loads[j + 1] == peers[j].connectionCount;
    assert forall j | 1 <= j < |loads| :: loads[j] == peers[j - 1].connectionCount;
  }

  /**
   On the counts themselves: a connection is shed exactly when there is a live peer, the own count is over the
   fair share by more than the tolerance, and the least loaded peer would still hold fewer afterwards. It goes to
   that peer, the first of several, and is forced exactly when the own count is over twice the share.
   */
  lemma ShedsToTheLeastLoaded(peers: seq<Peer>, saved: nat, myCount: nat, tolerance: nat, k: nat)
    requires IsLeastLoaded(peers, k)
    ensures var d, share := Decided(peers, saved, myCount, tolerance), FairShare(saved, |peers| + 1);
            && (d.Shed? <==> myCount > share + tolerance && peers[k].connectionCount + 1 < myCount)
            && (d.Shed? ==> d.target == peers[k].id && (d.forced <==> myCount > 2 * share))
  {
    LeastLoadedIsTarget(peers, myCount, k);
    ChosenPeer(peers, myCount, k, saved, tolerance);
  }

  lemma NobodyToShedTo(saved: nat, myCount: nat, tolerance: nat)
    ensures Decided([], saved, myCount, tolerance) == Nothing
  {
  }

  /** The live peers are the others that are not draining, in the order they are listed in. */
  lemma {:induction false} LivePeersInOrder(before: seq<Peer>, rest: seq<Peer>, me: string)
    ensures LivePeers(before + rest, me) == LivePeers(before, me) + LivePeers(rest, me)
    ensures forall p :: LivePeers([p], me) == if p.id != me && !p.draining then [p] else []
    decreases |before|
  {
    if before == [] {
      assert before + rest == rest;
    } else {
      assert (before + rest)[1..] == before[1..] + rest;
      LivePeersInOrder(before[1..], rest, me);
    }
  }

  /** So with accurate counts an unpaused instance sheds exactly when it is over its share and tolerance. */
  lemma GuardNeverBlocks(peers: seq<Peer>, saved: nat, myCount: nat, tolerance: nat)
    requires Total(LoadsOf(peers, myCount), Itself) <= saved
    ensures Decided(peers, saved, myCount, tolerance).Shed? <==>
            WantsToShed(LoadsOf(peers, myCount), 0, saved, tolerance)
  {
    var loads := LoadsOf(peers, myCount);
    if WantsToShed(loads, 0, saved, tolerance) {
      EveryMoveImproves(loads, 0, TargetOf(loads, 0), saved, tolerance);
    }
  }
}
